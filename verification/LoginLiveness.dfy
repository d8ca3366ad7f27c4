/** When a call on the login service comes back.

    A call whose own context ends always does, within a few moves of its own.  A call that nobody
    cancels may not: done holds one token and several calls may be waiting for it, and a StartQR
    that gives up launches nothing for its successor to wait for.  `Stuck` is the exact condition:
    a call that is stuck stays so until its own context ends, and every other call can be answered
    without any context ending. */
module LoginLiveness {
  import opened Options
  import opened LoginFlow
  import opened LoginProtocol
  import opened LoginInvariant
  import opened LoginTheorems

  /** The attempt has exited and its token has been taken. */
  predicate Spent(w: World, g: nat) {
    g in w.attempts && w.attempts[g].phase.Exited? && w.attempts[g].done.None?
  }

  /** No token of attempt p will ever be sent or found. */
  predicate Lost(w: World, p: nat)
    decreases p
  {
    && p in w.attempts
    && match w.attempts[p].phase {
         case Waiting(q) => q < p && Lost(w, q)
         case Unlaunched => true
         case Exited(_) => Spent(w, p)
         case _ => false
       }
  }

  predicate Stuck(w: World, r: nat) {
    && r in w.requests
    && match w.requests[r].pc {
         case AwaitPrev(p) => Lost(w, p)
         case Selecting =>
           && Bound(w, r) && Spent(w, w.requests[r].bound.value)
           && !(w.requests[r].call.StartLogin? && Own(w, r).codeReq)
           && !(w.requests[r].call.StartQR? && Own(w, r).url.Some?)
         case Delivering(_, _) => Bound(w, r) && Spent(w, w.requests[r].bound.value)
         case Observing(_, _) =>
           && Bound(w, r) && Spent(w, w.requests[r].bound.value)
           && !(w.requests[r].call.SubmitCode? && Own(w, r).passReq)
         case _ => false
       }
  }

  // ----- stuck is for good

  /** What a spent attempt still may change: its url can be taken, nothing else that shows. */
  predicate Settled(w: World, v: World, g: nat) {
    && Spent(w, g) && Spent(v, g)
    && v.attempts[g].codeReq == w.attempts[g].codeReq && v.attempts[g].passReq == w.attempts[g].passReq
    && (w.attempts[g].url.None? ==> v.attempts[g].url.None?)
  }

  lemma ReceivingLeavesSpent(w: World, e: Event, g: nat)
    requires Inv(w) && Enabled(w, e) && Spent(w, g) && (e.TakeDone? || e.TakeUrl? || e.Deliver?)
    ensures Settled(w, Apply(w, e), g)
  {
    assert RequestOK(w, e.r);
  }

  lemma RegionsLeaveSpent(w: World, e: Event, g: nat)
    requires Inv(w) && Enabled(w, e) && Spent(w, g) && (e.Enter? || e.Abandon? || e.Launch? || e.TakeCtx?)
    ensures Settled(w, Apply(w, e), g)
  {
    assert AttemptOK(w, g) && RequestOK(w, e.r);
  }

  lemma SpentStays(w: World, e: Event, g: nat)
    requires Inv(w) && Enabled(w, e) && Spent(w, g)
    ensures Settled(w, Apply(w, e), g)
  {
    if e.Enter? || e.Abandon? || e.Launch? || e.TakeCtx? {
      RegionsLeaveSpent(w, e, g);
    } else if e.TakeDone? || e.TakeUrl? || e.Deliver? {
      ReceivingLeavesSpent(w, e, g);
    } else if Actor(e).Some? && Actor(e) != Some(g) {
      assert AttemptOK(w, g);
      OtherAttemptsStay(w, e, g);
    }
  }

  lemma UnlaunchedStays(w: World, e: Event, p: nat)
    requires Inv(w) && Enabled(w, e) && p in w.attempts && w.attempts[p].phase.Unlaunched?
    ensures p in Apply(w, e).attempts && Apply(w, e).attempts[p].phase.Unlaunched?
  {
    assert AttemptOK(w, p);
    assert e.OfRequest() && e.r in w.requests ==> RequestOK(w, e.r);
  }

  /** An attempt waiting for a token that is not there goes on waiting, or is given up. */
  lemma WaitingStays(w: World, e: Event, p: nat, q: nat)
    requires Inv(w) && Enabled(w, e) && p in w.attempts && w.attempts[p].phase == Waiting(q)
    requires q in w.attempts && w.attempts[q].done.None?
    ensures p in Apply(w, e).attempts
    ensures Apply(w, e).attempts[p].phase == Waiting(q) || Apply(w, e).attempts[p].phase.Unlaunched?
  {
    assert AttemptOK(w, p);
    assert e.OfRequest() && e.r in w.requests ==> RequestOK(w, e.r);
  }

  lemma LostHasNoToken(w: World, p: nat)
    requires Inv(w) && Lost(w, p)
    ensures w.attempts[p].done.None?
  {
    assert AttemptOK(w, p);
  }

  lemma {:induction false} LostStays(w: World, e: Event, p: nat)
    requires Inv(w) && Enabled(w, e) && Lost(w, p)
    ensures Lost(Apply(w, e), p)
    decreases p
  {
    match w.attempts[p].phase
    case Waiting(q) =>
      LostHasNoToken(w, q);
      WaitingStays(w, e, p, q);
      LostStays(w, e, q);
    case Unlaunched => UnlaunchedStays(w, e, p);
    case Exited(_) => SpentStays(w, e, p);
  }

  lemma StuckCannotMove(w: World, e: Event, r: nat)
    requires Inv(w) && Stuck(w, r) && !w.requests[r].ctxDone
    requires e.OfRequest() && e.r == r && e != CancelRequest(r)
    ensures !Enabled(w, e)
  {
    assert RequestOK(w, r);
    if At(w, r).AwaitPrev? {
      LostHasNoToken(w, At(w, r).prev);
    }
  }

  lemma StuckStays(w: World, e: Event, r: nat)
    requires Inv(w) && Enabled(w, e) && Stuck(w, r) && !w.requests[r].ctxDone && e != CancelRequest(r)
    ensures Stuck(Apply(w, e), r) && !Apply(w, e).requests[r].ctxDone
  {
    assert RequestOK(w, r);
    if !e.OfRequest() {
      GoroutinesLeaveRequests(w, e);
    } else {
      if e.r == r {
        StuckCannotMove(w, e, r);
      }
      RequestStays(w, e, r);
    }
    if At(w, r).AwaitPrev? {
      LostStays(w, e, At(w, r).prev);
    } else {
      SpentStays(w, e, w.requests[r].bound.value);
    }
  }

  /** `more` goes on where es stops. */
  ghost predicate GoesOn(es: seq<Event>, more: seq<Event>) {
    Possible(es) && Possible(more) && |es| <= |more| && more[..|es|] == es
  }

  /** Whatever everybody else does, a stuck call waits for good: only the end of its own context
      moves it. */
  lemma {:induction false} StuckForGood(es: seq<Event>, more: seq<Event>, r: nat)
    requires GoesOn(es, more) && Stuck(After(es), r) && !After(es).requests[r].ctxDone
    requires forall i | |es| <= i < |more| :: more[i] != CancelRequest(r)
    ensures Stuck(After(more), r) && !After(more).requests[r].ctxDone
    decreases |more|
  {
    if |more| == |es| {
      assert more == es;
    } else {
      var before := more[..|more| - 1];
      assert before[..|es|] == es;
      StuckForGood(es, before, r);
      Always(before);
      StuckStays(After(before), more[|more| - 1], r);
    }
  }

  // ----- everything else can be answered

  /** es goes on to more with no request's context ending on the way; calmly, if nobody even enters
      a region that could reset the record. */
  ghost predicate Quietly(es: seq<Event>, more: seq<Event>, calm: bool := false) {
    && GoesOn(es, more)
    && forall i | |es| <= i < |more| :: !more[i].CancelRequest? && (calm ==> !more[i].Enter? && !more[i].Abandon?)
  }

  lemma Then(es: seq<Event>, mid: seq<Event>, e: Event, calm: bool := false) returns (more: seq<Event>)
    requires Quietly(es, mid, calm) && Enabled(After(mid), e) && !e.CancelRequest?
    requires calm ==> !e.Enter? && !e.Abandon?
    ensures more == mid + [e] && Quietly(es, more, calm) && After(more) == Apply(After(mid), e) && Inv(After(more))
  {
    more := mid + [e];
    Extend(mid, e);
    assert more[..|es|] == es;
    Always(more);
  }

  lemma QuietlyOn(es: seq<Event>, mid: seq<Event>, more: seq<Event>, calm: bool := false)
    requires Quietly(es, mid, calm) && Quietly(mid, more, calm)
    ensures Quietly(es, more, calm)
  {
    assert more[..|es|] == more[..|mid|][..|es|];
    forall i | |es| <= i < |more|
      ensures !more[i].CancelRequest? && (calm ==> !more[i].Enter? && !more[i].Abandon?)
    {
      if i < |mid| {
        assert more[i] == more[..|mid|][i] == mid[i];
      }
    }
  }

  /** A cancelled goroutine runs to its exit and leaves its token; no request and no generation
      notices. */
  lemma {:induction false} Drain(es: seq<Event>, g: nat) returns (more: seq<Event>)
    requires Possible(es) && Doomed(After(es), g)
    requires After(es).attempts[g].phase.Exited? ==> After(es).attempts[g].done.Some?
    ensures Quietly(es, more, true) && g in After(more).attempts && After(more).attempts[g].done.Some?
    ensures After(more).requests == After(es).requests && After(more).f.gen == After(es).f.gen
    decreases Rank(After(es).attempts[g].phase)
  {
    var w := After(es);
    if w.attempts[g].phase.Exited? {
      more := es;
      assert es[..|es|] == es;
    } else {
      Always(es);
      var e := OwnMove(w, g);
      OwnMoveEnabled(w, g);
      assert es[..|es|] == es;
      var next := Then(es, es, e, true);
      GoroutinesLeaveRequests(w, e);
      DoomedGetsCloser(w, e, g);
      GenerationStays(w, e);
      more := Drain(next, g);
      QuietlyOn(es, next, more, true);
    }
  }

  /** Only a region that resets makes a new generation. */
  lemma GenerationStays(w: World, e: Event)
    requires Enabled(w, e) && !e.Enter? && !e.Abandon?
    ensures Apply(w, e).f.gen == w.f.gen
  {
  }

  /** Every request but those of attempt p or an older one is where it was. */
  predicate Unmoved(w: World, v: World, p: nat) {
    && v.f.gen == w.f.gen
    && forall r | r in w.requests && w.requests[r].bound.Some? && w.requests[r].bound.value > p ::
         r in v.requests && v.requests[r] == w.requests[r]
  }

  /** An attempt that is about to be launched and is no longer current leaves a token. */
  lemma FreeReady(es: seq<Event>, p: nat) returns (more: seq<Event>)
    requires Possible(es) && p in After(es).attempts && p < After(es).f.gen && After(es).attempts[p].phase.Ready?
    ensures Quietly(es, more, true) && p in After(more).attempts && After(more).attempts[p].done.Some?
    ensures Unmoved(After(es), After(more), p)
  {
    var w := After(es);
    Always(es);
    assert AttemptOK(w, p) && RequestOK(w, w.attempts[p].maker);
    assert es[..|es|] == es;
    var next := Then(es, es, Launch(w.attempts[p].maker), true);
    more := Drain(next, p);
    QuietlyOn(es, next, more, true);
  }

  /** An attempt that is not lost leaves a token in the end, launched by its maker if need be once
      the attempts it waits for have left theirs. */
  lemma {:induction false} Free(es: seq<Event>, p: nat) returns (more: seq<Event>)
    requires Possible(es) && p in After(es).attempts && p < After(es).f.gen && !Lost(After(es), p)
    ensures Quietly(es, more, true) && p in After(more).attempts && After(more).attempts[p].done.Some?
    ensures Unmoved(After(es), After(more), p)
    decreases p
  {
    var w := After(es);
    Always(es);
    assert AttemptOK(w, p);
    if w.attempts[p].phase.Waiting? {
      var q, m := w.attempts[p].phase.prev, w.attempts[p].maker;
      assert RequestOK(w, m);
      var freed := Free(es, q);
      Always(freed);
      assert RequestOK(After(freed), m);
      var next := Then(es, freed, TakeDone(m), true);
      more := FreeReady(next, p);
      QuietlyOn(es, next, more, true);
    } else if w.attempts[p].phase.Ready? {
      more := FreeReady(es, p);
    } else {
      more := Drain(es, p);
    }
  }

  lemma {:induction false} Unused(used: set<nat>) returns (k: nat)
    ensures forall x | x in used :: x < k
    decreases |used|
  {
    k := 0;
    if used != {} {
      var x :| x in used;
      var rest := Unused(used - {x});
      k := if rest <= x then x + 1 else rest;
      assert forall y | y in used :: y == x || y in used - {x};
    }
  }

  /** Somebody logs out: every attempt is cancelled, and nothing is in progress. */
  lemma SomebodyLogsOut(es: seq<Event>) returns (more: seq<Event>)
    requires Possible(es)
    ensures Quietly(es, more) && !After(more).f.inProgress && After(more).f.state.LoggedOut?
    ensures forall g | g in After(es).attempts ::
              g in After(more).attempts && After(more).attempts[g] == After(es).attempts[g].(cancelled := true)
    ensures forall r | r in After(es).requests ::
              r in After(more).requests && After(more).requests[r] == After(es).requests[r]
  {
    var w := After(es);
    Always(es);
    var k := Unused(w.requests.Keys);
    assert k !in w.requests;
    assert es[..|es|] == es;
    var next := Then(es, es, Arrive(k, Logout));
    more := Then(es, next, Enter(k));
    forall g | g in w.attempts
      ensures g in After(more).attempts && After(more).attempts[g] == w.attempts[g].(cancelled := true)
    {
      assert AttemptOK(w, g);
    }
  }

  /** A call on an attempt that has been launched, and whose token is not gone. */
  lemma AnsweredByToken(es: seq<Event>, r: nat) returns (more: seq<Event>)
    requires Possible(es) && r in After(es).requests && Bound(After(es), r)
    requires At(After(es), r).Selecting? || At(After(es), r).Delivering? || At(After(es), r).Observing?
    requires !Spent(After(es), After(es).requests[r].bound.value)
    ensures Quietly(es, more) && r in After(more).requests && At(After(more), r).Answered?
  {
    var g := After(es).requests[r].bound.value;
    Always(es);
    assert RequestOK(After(es), r);
    var out := SomebodyLogsOut(es);
    var drained := Drain(out, g);
    QuietlyOn(es, out, drained);
    more := Then(es, drained, TakeDone(r));
  }

  lemma AnsweredOnceLaunching(es: seq<Event>, r: nat) returns (more: seq<Event>)
    requires Possible(es) && r in After(es).requests && At(After(es), r).Launching?
    ensures Quietly(es, more) && r in After(more).requests && At(After(more), r).Answered?
  {
    Always(es);
    assert RequestOK(After(es), r);
    assert es[..|es|] == es;
    var next := Then(es, es, Launch(r));
    more := AnsweredByToken(next, r);
    QuietlyOn(es, next, more);
  }

  lemma AnsweredFromStart(es: seq<Event>, r: nat) returns (more: seq<Event>)
    requires Possible(es) && r in After(es).requests && At(After(es), r).Start?
    ensures Quietly(es, more) && r in After(more).requests && At(After(more), r).Answered?
  {
    var out := SomebodyLogsOut(es);
    more := Then(es, out, Enter(r));
    if At(After(more), r).Launching? {
      var entered := more;
      more := AnsweredOnceLaunching(entered, r);
      QuietlyOn(es, entered, more);
    }
  }

  lemma AnsweredAfterWaiting(es: seq<Event>, r: nat) returns (more: seq<Event>)
    requires Possible(es) && r in After(es).requests && At(After(es), r).AwaitPrev? && !Stuck(After(es), r)
    ensures Quietly(es, more) && r in After(more).requests && At(After(more), r).Answered?
  {
    var p := At(After(es), r).prev;
    Always(es);
    assert RequestOK(After(es), r) && AttemptOK(After(es), After(es).requests[r].bound.value);
    var freed := Free(es, p);
    Always(freed);
    assert RequestOK(After(freed), r);
    var next := Then(es, freed, TakeDone(r));
    more := AnsweredOnceLaunching(next, r);
    QuietlyOn(es, next, more);
  }

  lemma AnsweredUnlessStuck(es: seq<Event>, r: nat) returns (more: seq<Event>)
    requires Possible(es) && r in After(es).requests && !Stuck(After(es), r)
    ensures Quietly(es, more) && r in After(more).requests && At(After(more), r).Answered?
  {
    var w := After(es);
    Always(es);
    assert RequestOK(w, r);
    assert es[..|es|] == es;
    match At(w, r)
    case Start => more := AnsweredFromStart(es, r);
    case Launching => more := AnsweredOnceLaunching(es, r);
    case AwaitPrev(_) => more := AnsweredAfterWaiting(es, r);
    case Abandoning => more := Then(es, es, Abandon(r));
    case Answered(_) => more := es;
    case Delivering(_, _) => more := AnsweredByToken(es, r);
    case Observing(_, _) =>
      if Spent(w, w.requests[r].bound.value) {
        more := Then(es, es, SeePassRequest(r));
      } else {
        more := AnsweredByToken(es, r);
      }
    case Selecting =>
      if !Spent(w, w.requests[r].bound.value) {
        more := AnsweredByToken(es, r);
      } else if w.requests[r].call.StartQR? {
        more := Then(es, es, TakeUrl(r));
      } else {
        more := Then(es, es, SeeCodeRequest(r));
      }
  }

  /** Exactly when a call whose context lasts can still be answered. */
  lemma AnswerableIffNotStuck(es: seq<Event>, r: nat)
    requires Possible(es) && r in After(es).requests && !After(es).requests[r].ctxDone
    ensures !Stuck(After(es), r)
            <==> exists more :: Quietly(es, more) && r in After(more).requests && At(After(more), r).Answered?
  {
    if !Stuck(After(es), r) {
      var more := AnsweredUnlessStuck(es, r);
    } else {
      forall more | Quietly(es, more) && r in After(more).requests
        ensures !At(After(more), r).Answered?
      {
        StuckForGood(es, more, r);
      }
    }
  }

  // ----- a call whose context has ended

  /** How many moves of its own a call can still make. */
  function Left(pc: Pc): nat {
    match pc
    case Start => 5
    case AwaitPrev(_) => 4
    case Launching => 3
    case Selecting => 2
    case Delivering(_, _) => 2
    case Observing(_, _) => 1
    case Abandoning => 1
    case Answered(_) => 0
  }

  /** Every move of a call's own brings it closer to its answer, and no one else's moves it. */
  lemma MovesTowardsAnswer(w: World, e: Event, r: nat)
    requires Inv(w) && Enabled(w, e) && r in w.requests
    ensures r in Apply(w, e).requests
    ensures if e.OfRequest() && e.r == r && !e.CancelRequest?
            then Left(At(Apply(w, e), r)) < Left(At(w, r))
            else At(Apply(w, e), r) == At(w, r)
  {
    assert RequestOK(w, r);
    if !e.OfRequest() {
      GoroutinesLeaveRequests(w, e);
    } else {
      RequestStays(w, e, r);
    }
  }

  /** The move a call can always make once its context has ended. */
  function Retreat(w: World, r: nat): Event
    requires r in w.requests
  {
    match At(w, r)
    case Start => Enter(r)
    case Launching => Launch(r)
    case Abandoning => Abandon(r)
    case _ => TakeCtx(r)
  }

  lemma RetreatEnabled(w: World, r: nat)
    requires Inv(w) && r in w.requests && w.requests[r].ctxDone && !At(w, r).Answered?
    ensures Enabled(w, Retreat(w, r))
    ensures r in Apply(w, Retreat(w, r)).requests && Apply(w, Retreat(w, r)).requests[r].ctxDone
  {
    assert RequestOK(w, r);
  }

  lemma RetreatStep(es: seq<Event>, r: nat) returns (e: Event)
    requires Possible(es) && r in After(es).requests
    requires After(es).requests[r].ctxDone && !At(After(es), r).Answered?
    ensures e.OfRequest() && e.r == r && !e.CancelRequest? && Possible(es + [e])
    ensures r in After(es + [e]).requests && After(es + [e]).requests[r].ctxDone
    ensures Left(At(After(es + [e]), r)) < Left(At(After(es), r))
  {
    Always(es);
    e := Retreat(After(es), r);
    RetreatEnabled(After(es), r);
    MovesTowardsAnswer(After(es), e, r);
    Extend(es, e);
  }

  /** A call whose context has ended is answered by moves of its own alone, at most five. */
  lemma {:induction false} CancelledCallReturns(es: seq<Event>, r: nat) returns (tail: seq<Event>)
    requires Possible(es) && r in After(es).requests && After(es).requests[r].ctxDone
    ensures Possible(es + tail) && r in After(es + tail).requests && At(After(es + tail), r).Answered?
    ensures |tail| <= Left(At(After(es), r)) <= 5
    ensures forall e | e in tail :: e.OfRequest() && e.r == r && !e.CancelRequest?
    decreases Left(At(After(es), r))
  {
    if At(After(es), r).Answered? {
      tail := [];
      assert es + tail == es;
    } else {
      var e := RetreatStep(es, r);
      var rest := CancelledCallReturns(es + [e], r);
      tail := [e] + rest;
      assert es + [e] + rest == es + tail;
    }
  }

  // ----- stuck calls exist

  /** The StartLogin that made a preempted attempt reads its token before the StartQR that waits
      for it. */
  lemma TokenCanBeStolen() returns (es: seq<Event>)
    ensures Possible(es) && Stuck(After(es), 1) && At(After(es), 1) == AwaitPrev(1)
    ensures Spent(After(es), 1)
  {
    es := BothWaiting();
    es := RunToExit(es, 1, Rejected("context canceled"));
    Extend(es, TakeDone(0));
    es := es + [TakeDone(0)];
  }

  /** Of two StartQR calls in a row, the first gives up: the second waits for a goroutine that
      nobody starts. */
  lemma GivingUpStrands() returns (es: seq<Event>)
    ensures Possible(es) && Stuck(After(es), 2) && At(After(es), 2) == AwaitPrev(2)
    ensures 2 in After(es).attempts && After(es).attempts[2].phase.Unlaunched?
  {
    es := BothWaiting();
    Extend(es, Arrive(2, StartQR));
    es := es + [Arrive(2, StartQR)];
    Extend(es, Enter(2));
    es := es + [Enter(2)];
    Extend(es, CancelRequest(1));
    es := es + [CancelRequest(1)];
    Extend(es, TakeCtx(1));
    es := es + [TakeCtx(1)];
  }

  /** A code login runs, its StartLogin still selects, and a StartQR has preempted it. */
  lemma BothWaiting() returns (es: seq<Event>)
    ensures Possible(es)
    ensures After(es) ==
            World(NEW_REC.WinStartLogin().StartQR(),
                  map[1 := NewAttempt(CodeLogin, 0, Running).(cancelled := true),
                      2 := NewAttempt(QrLogin, 1, Waiting(1))],
                  map[0 := Request(StartLogin("+1"), false, Selecting, Some(1)),
                      1 := Request(StartQR, false, AwaitPrev(1), Some(2))])
  {
    es := Begun(0);
    Extend(es, Arrive(1, StartQR));
    es := es + [Arrive(1, StartQR)];
    Extend(es, Enter(1));
    es := es + [Enter(1)];
  }

  /** A run that brings an attempt whose maker is still selecting to its exit with result x. */
  lemma RunToExit(es: seq<Event>, g: nat, x: RunResult) returns (more: seq<Event>)
    requires Possible(es) && In(After(es), g, CodeLogin, Running)
    requires After(es).f.gen != g && After(es).attempts[g].cancelled && After(es).attempts[g].done.None?
    ensures Possible(more)
    ensures After(more) == After(es).(attempts := After(es).attempts[g :=
                             After(es).attempts[g].(phase := Exited(x), done := Some(x),
                                                    sent := After(es).attempts[g].sent + 1)])
  {
    more := es;
    Extend(more, RunReturns(g, x));
    more := more + [RunReturns(g, x)];
    Extend(more, Finish(g));
    more := more + [Finish(g)];
    Extend(more, Send(g));
    more := more + [Send(g)];
  }

}
