/** What every reachable world of the login protocol satisfies, and the proof that every event
    keeps it.  The statements a reader wants are drawn from it in LoginTheorems.dfy. */
module LoginInvariant {
  import opened Options
  import opened LoginFlow
  import opened LoginProtocol

  /** Unless the url has been taken, it is the first one shown. */
  predicate UrlFits(a: Attempt) {
    if a.url.Some? then |a.shown| > 0 && a.url.value == a.shown[0]
    else if a.phase.InToken? then a.shown == [a.phase.shown]
    else a.shown == []
  }

  /** What an attempt's own fields say about one another. */
  predicate Local(a: Attempt) {
    && a.sent == a.received + (if a.done.Some? then 1 else 0)
    && a.sent == (if a.phase.Exited? then 1 else 0)
    && (a.done.Some? ==> a.phase == Exited(a.done.value))
    && (a.passFrom.Some? ==> a.passReq)
    && (a.passReq ==> a.codeFrom.Some?)
    && (a.codeFrom.Some? ==> a.codeReq)
    && (a.codeReq ==> a.kind.CodeLogin?)
    && (a.codeReq && a.codeFrom.None? && !a.phase.CodeBlocked? ==> a.cancelled)
    && (a.passReq && a.passFrom.None? && !a.phase.PassBlocked? ==> a.cancelled)
    && match a.phase {
         case Waiting(_) => a.kind.QrLogin? && a.url.None? && UrlFits(a)
         case Unlaunched => a.kind.QrLogin?
         case InToken(_) => a.kind.QrLogin?
         case Ready => !a.codeReq && a.url.None? && UrlFits(a)
         case Running => !a.codeReq
         case CodeEntered => a.kind.CodeLogin? && !a.codeReq
         case CodePublished => a.kind.CodeLogin? && !a.codeReq
         case CodeBlocked => a.codeReq && a.codeFrom.None?
         case CodeReturned(ok) => a.codeReq && !a.passReq && ok == a.codeFrom.Some?
         case PassEntered => a.codeFrom.Some? && !a.passReq
         case PassPublished => a.codeFrom.Some? && !a.passReq
         case PassBlocked => a.passReq && a.passFrom.None?
         case PassReturned(ok) => a.passReq && ok == a.passFrom.Some?
         case _ => true
       }
  }

  /** The login state the current attempt must have published, phase by phase. */
  predicate StateFits(st: LoginState, a: Attempt) {
    match a.phase
    case CodePublished => st.WaitCode?
    case CodeBlocked => st.WaitCode?
    case CodeReturned(_) => st.WaitCode?
    case PassEntered => st.WaitCode?
    case PassPublished => st.WaitPassword?
    case PassBlocked => st.WaitPassword?
    case PassReturned(_) => st.WaitPassword?
    case Returned(_) => (st.WaitCode? ==> a.codeReq) && (st.WaitPassword? ==> a.passReq)
    case _ => !st.WaitCode? && !st.WaitPassword?
  }

  predicate Delivered(w: World, g: nat, r: nat) {
    && r in w.requests
    && w.requests[r].bound == Some(g)
    && (w.requests[r].pc.Observing? || w.requests[r].pc.Answered?)
  }

  /** The request that made attempt g, and what it is doing while g has not been launched. */
  predicate MakerFits(w: World, g: nat)
    requires g in w.attempts
  {
    var a := w.attempts[g];
    && a.maker in w.requests
    && w.requests[a.maker].bound == Some(g)
    && w.requests[a.maker].call.Starts()
    && (w.requests[a.maker].call.StartLogin? <==> a.kind.CodeLogin?)
    && (a.phase.Ready? ==> w.requests[a.maker].pc == Launching)
    && (a.phase.Waiting? ==> w.requests[a.maker].pc == AwaitPrev(a.phase.prev))
    && (a.phase.Unlaunched? ==> w.requests[a.maker].pc == Abandoning || g != w.f.gen)
  }

  predicate AttemptOK(w: World, g: nat)
    requires g in w.attempts
  {
    var a := w.attempts[g];
    && 1 <= g <= w.f.gen
    && Local(a)
    && MakerFits(w, g)
    && a.cancelled == (g != w.f.gen || !w.f.inProgress)
    && (a.phase.Waiting? ==> a.phase.prev == g - 1 && a.phase.prev in w.attempts)
    && (a.codeFrom.Some? ==> Delivered(w, g, a.codeFrom.value) && w.requests[a.codeFrom.value].call.SubmitCode?)
    && (a.passFrom.Some? ==> Delivered(w, g, a.passFrom.value) && w.requests[a.passFrom.value].call.SubmitPassword?)
    && (g == w.f.gen ==>
          && (w.f.inProgress <==> !a.phase.Recorded? && !a.phase.Exited?)
          && (w.f.inProgress ==> StateFits(w.f.state, a))
          && (w.f.inProgress ==> (w.f.auth.Some? <==> a.kind.CodeLogin?)))
  }

  predicate RequestOK(w: World, r: nat)
    requires r in w.requests
  {
    var q := w.requests[r];
    && (q.bound.Some? ==> q.bound.value in w.attempts)
    && (q.bound.Some? && q.call.Starts() ==> w.attempts[q.bound.value].maker == r)
    && (q.bound.Some? && q.call.Submits() ==>
          w.attempts[q.bound.value].kind.CodeLogin? && w.attempts[q.bound.value].phase.Launched())
    && match q.pc {
         case Start => q.bound.None?
         case Launching => q.call.Starts() && q.bound.Some? && w.attempts[q.bound.value].phase.Ready?
         case Selecting =>
           && q.call.Starts() && q.bound.Some? && w.attempts[q.bound.value].phase.Launched()
           && (q.call.StartQR? ==> UrlFits(w.attempts[q.bound.value]))
         case AwaitPrev(p) => q.call.StartQR? && q.bound.Some? && w.attempts[q.bound.value].phase == Waiting(p)
         case Abandoning =>
           && q.call.Starts() && q.bound.Some? && q.ctxDone
           && (w.attempts[q.bound.value].phase.Unlaunched? || w.attempts[q.bound.value].phase.Launched())
         case Delivering(a, d) => q.call.Submits() && q.bound.Some? && a == d == q.bound
         case Observing(a, d) => q.call.Submits() && q.bound.Some? && a == d == q.bound
         case Answered(answer) => AnswerFits(w, q, answer)
       }
  }

  /** Why a request may have got the answer it got. */
  predicate AnswerFits(w: World, q: Request, answer: Answer)
    requires q.bound.Some? ==> q.bound.value in w.attempts
  {
    match answer
    case Succeeded =>
      q.call.Logout? || (q.bound.Some? &&
        (|| w.attempts[q.bound.value].phase == Exited(Authorized)
         || (q.call.StartLogin? && w.attempts[q.bound.value].codeReq)))
    case AttemptFailed(why) => q.bound.Some? && w.attempts[q.bound.value].phase == Exited(Rejected(why))
    case PasswordNeeded => q.call.SubmitCode? && q.bound.Some? && w.attempts[q.bound.value].passReq
    case ContextError =>
      q.ctxDone && q.bound.Some? && (q.call.Starts() ==> w.attempts[q.bound.value].cancelled)
    case TokenUrl(u) =>
      && q.call.StartQR? && q.bound.Some? && w.attempts[q.bound.value].phase.Launched()
      && (|| (|w.attempts[q.bound.value].shown| > 0 && u == w.attempts[q.bound.value].shown[0])
          || (u == "" && w.attempts[q.bound.value].phase == Exited(Authorized)))
    case EmptyPhone => q.call == StartLogin("") && q.bound.None?
    case AlreadyInProgress => q.call.StartLogin? && q.bound.None?
    case NoLoginInProgress(st) =>
      q.bound.None? && ((q.call.SubmitCode? && !st.WaitCode?) || (q.call.SubmitPassword? && !st.WaitPassword?))
  }

  ghost predicate Inv(w: World) {
    && w.f.Coherent()
    && (w.f.inProgress ==> w.f.gen in w.attempts)
    && (forall g {:trigger AttemptOK(w, g)} | g in w.attempts :: AttemptOK(w, g))
    && (forall r {:trigger RequestOK(w, r)} | r in w.requests :: RequestOK(w, r))
  }

  // ----- one attempt moves on, and perhaps publishes a state

  /** What the rest of the world relies on an attempt not to undo. */
  predicate Onward(a: Attempt, b: Attempt) {
    && b.maker == a.maker && b.kind == a.kind
    && a.phase.Launched() && b.phase.Launched()
    && (a.phase.PastRun() ==> b.phase.PastRun())
    && (a.phase.Exited? ==> b.phase == a.phase)
    && (a.codeReq ==> b.codeReq) && (a.passReq ==> b.passReq)
    && a.shown <= b.shown && (a.cancelled ==> b.cancelled)
  }

  /** Nor, while the request that made it still selects, to touch its first url. */
  predicate UrlKept(w: World, g: nat, b: Attempt)
    requires g in w.attempts
  {
    var m := w.attempts[g].maker;
    m in w.requests && w.requests[m].pc.Selecting? && UrlFits(w.attempts[g]) ==> UrlFits(b)
  }

  function Moved(w: World, g: nat, b: Attempt, st: LoginState): World {
    w.(attempts := w.attempts[g := b], f := w.f.(state := st))
  }

  lemma MovedKeepsRequest(w: World, g: nat, b: Attempt, st: LoginState, r: nat)
    requires g in w.attempts && Onward(w.attempts[g], b) && UrlKept(w, g, b)
    requires r in w.requests && RequestOK(w, r)
    ensures RequestOK(Moved(w, g, b, st), r)
  {
  }

  lemma MovedKeepsAttempt(w: World, g: nat, b: Attempt, st: LoginState, h: nat)
    requires g in w.attempts && h in w.attempts && h != g && AttemptOK(w, h)
    requires st == w.f.state || g == w.f.gen
    ensures AttemptOK(Moved(w, g, b, st), h)
  {
  }

  /** The whole invariant follows from the moving attempt's own part of it. */
  lemma MovedKeeps(w: World, g: nat, b: Attempt, st: LoginState)
    requires Inv(w) && g in w.attempts && Onward(w.attempts[g], b) && UrlKept(w, g, b)
    requires st == w.f.state || g == w.f.gen
    requires var v := Moved(w, g, b, st); v.f.Coherent() && AttemptOK(v, g)
    ensures Inv(Moved(w, g, b, st))
  {
    var v := Moved(w, g, b, st);
    forall h | h in v.attempts
      ensures AttemptOK(v, h)
    {
      if h != g {
        assert AttemptOK(w, h);
        MovedKeepsAttempt(w, g, b, st, h);
      }
    }
    forall r | r in v.requests
      ensures RequestOK(v, r)
    {
      assert RequestOK(w, r);
      MovedKeepsRequest(w, g, b, st, r);
    }
  }

  lemma KeepsAskCode(w: World, g: nat)
    requires Inv(w) && Enabled(w, Event.AskCode(g))
    ensures Inv(Apply(w, Event.AskCode(g)))
  {
    assert AttemptOK(w, g);
    MovedKeeps(w, g, w.attempts[g].(phase := CodeEntered), w.f.state);
  }

  lemma KeepsPublishCode(w: World, g: nat)
    requires Inv(w) && Enabled(w, Event.PublishCode(g))
    ensures Inv(Apply(w, Event.PublishCode(g)))
  {
    assert AttemptOK(w, g);
    MovedKeeps(w, g, w.attempts[g].(phase := CodePublished), if w.f.gen == g then WaitCode else w.f.state);
  }

  lemma KeepsCloseCodeReq(w: World, g: nat)
    requires Inv(w) && Enabled(w, Event.CloseCodeReq(g))
    ensures Inv(Apply(w, Event.CloseCodeReq(g)))
  {
    assert AttemptOK(w, g);
    MovedKeeps(w, g, w.attempts[g].(phase := CodeBlocked, codeReq := true), w.f.state);
  }

  lemma KeepsCodeCancelled(w: World, g: nat)
    requires Inv(w) && Enabled(w, Event.CodeCancelled(g))
    ensures Inv(Apply(w, Event.CodeCancelled(g)))
  {
    assert AttemptOK(w, g);
    MovedKeeps(w, g, w.attempts[g].(phase := CodeReturned(false)), w.f.state);
  }

  lemma KeepsAskPassword(w: World, g: nat)
    requires Inv(w) && Enabled(w, Event.AskPassword(g))
    ensures Inv(Apply(w, Event.AskPassword(g)))
  {
    assert AttemptOK(w, g);
    MovedKeeps(w, g, w.attempts[g].(phase := PassEntered), w.f.state);
  }

  lemma KeepsPublishPass(w: World, g: nat)
    requires Inv(w) && Enabled(w, Event.PublishPass(g))
    ensures Inv(Apply(w, Event.PublishPass(g)))
  {
    assert AttemptOK(w, g);
    MovedKeeps(w, g, w.attempts[g].(phase := PassPublished), if w.f.gen == g then WaitPassword else w.f.state);
  }

  lemma KeepsClosePassReq(w: World, g: nat)
    requires Inv(w) && Enabled(w, Event.ClosePassReq(g))
    ensures Inv(Apply(w, Event.ClosePassReq(g)))
  {
    assert AttemptOK(w, g);
    MovedKeeps(w, g, w.attempts[g].(phase := PassBlocked, passReq := true), w.f.state);
  }

  lemma KeepsPassCancelled(w: World, g: nat)
    requires Inv(w) && Enabled(w, Event.PassCancelled(g))
    ensures Inv(Apply(w, Event.PassCancelled(g)))
  {
    assert AttemptOK(w, g);
    MovedKeeps(w, g, w.attempts[g].(phase := PassReturned(false)), w.f.state);
  }

  lemma KeepsShowToken(w: World, g: nat, u: string)
    requires Inv(w) && Enabled(w, Event.ShowToken(g, u))
    ensures Inv(Apply(w, Event.ShowToken(g, u)))
  {
    assert AttemptOK(w, g);
    MovedKeeps(w, g, Apply(w, Event.ShowToken(g, u)).attempts[g], w.f.state);
  }

  lemma KeepsPutToken(w: World, g: nat)
    requires Inv(w) && Enabled(w, Event.PutToken(g))
    ensures Inv(Apply(w, Event.PutToken(g)))
  {
    assert AttemptOK(w, g);
    MovedKeeps(w, g, Apply(w, PutToken(g)).attempts[g], w.f.state);
  }

  lemma KeepsRunReturns(w: World, g: nat, x: RunResult)
    requires Inv(w) && Enabled(w, Event.RunReturns(g, x))
    ensures Inv(Apply(w, Event.RunReturns(g, x)))
  {
    assert AttemptOK(w, g);
    MovedKeeps(w, g, w.attempts[g].(phase := Returned(x)), w.f.state);
  }

  lemma KeepsSend(w: World, g: nat)
    requires Inv(w) && Enabled(w, Event.Send(g))
    ensures Inv(Apply(w, Event.Send(g)))
  {
    assert AttemptOK(w, g);
    MovedKeeps(w, g, Apply(w, Send(g)).attempts[g], w.f.state);
  }

  // ----- one request moves on, and no attempt depends on where it was

  predicate Steps(w: World, r: nat, q: Request) {
    r in w.requests ==>
      var p := w.requests[r];
      && q.call == p.call && (p.bound.Some? ==> q.bound == p.bound)
      && (|| q.pc == p.pc
          || p.pc.Start? || p.pc.Selecting? || p.pc.Delivering?
          || (p.pc.Observing? && q.pc.Answered?)
          || (p.pc.Abandoning? && p.bound != Some(w.f.gen)))
  }

  /** The same when the record moves to a new generation anyway. */
  predicate StepsWithReset(w: World, r: nat, q: Request) {
    || Steps(w, r, q)
    || (r in w.requests && w.requests[r].pc.Abandoning?
        && q.call == w.requests[r].call && q.bound == w.requests[r].bound)
  }

  function Stepped(w: World, r: nat, q: Request): World {
    w.(requests := w.requests[r := q])
  }

  lemma SteppedKeepsAttempt(w: World, r: nat, q: Request, g: nat)
    requires g in w.attempts && AttemptOK(w, g)
    requires Steps(w, r, q) && (r in w.requests ==> RequestOK(w, r))
    ensures AttemptOK(Stepped(w, r, q), g)
  {
  }

  lemma SteppedKeeps(w: World, r: nat, q: Request)
    requires Inv(w) && Steps(w, r, q) && RequestOK(Stepped(w, r, q), r)
    ensures Inv(Stepped(w, r, q))
  {
    var v := Stepped(w, r, q);
    assert r in w.requests ==> RequestOK(w, r);
    forall g | g in v.attempts
      ensures AttemptOK(v, g)
    {
      assert AttemptOK(w, g);
      SteppedKeepsAttempt(w, r, q, g);
    }
    forall s | s in v.requests
      ensures RequestOK(v, s)
    {
      assert s != r ==> RequestOK(w, s);
    }
  }

  lemma KeepsArrive(w: World, r: nat, c: Call)
    requires Inv(w) && Enabled(w, Arrive(r, c))
    ensures Inv(Apply(w, Arrive(r, c)))
  {
    SteppedKeeps(w, r, Request(c, false, Start, None));
  }

  lemma KeepsCancelRequest(w: World, r: nat)
    requires Inv(w) && Enabled(w, CancelRequest(r))
    ensures Inv(Apply(w, CancelRequest(r)))
  {
    assert RequestOK(w, r);
    SteppedKeeps(w, r, w.requests[r].(ctxDone := true));
  }

  lemma KeepsSeeCodeRequest(w: World, r: nat)
    requires Inv(w) && Enabled(w, SeeCodeRequest(r))
    ensures Inv(Apply(w, SeeCodeRequest(r)))
  {
    assert RequestOK(w, r);
    SteppedKeeps(w, r, w.requests[r].(pc := Answered(Succeeded)));
  }

  lemma KeepsSeePassRequest(w: World, r: nat)
    requires Inv(w) && Enabled(w, SeePassRequest(r))
    ensures Inv(Apply(w, SeePassRequest(r)))
  {
    assert RequestOK(w, r);
    SteppedKeeps(w, r, w.requests[r].(pc := Answered(PasswordNeeded)));
  }

  // ----- one request and one launched attempt move on, one after the other

  lemma KeepsTakeUrl(w: World, r: nat)
    requires Inv(w) && Enabled(w, TakeUrl(r))
    ensures Inv(Apply(w, TakeUrl(r)))
  {
    var g := w.requests[r].bound.value;
    assert RequestOK(w, r) && AttemptOK(w, g);
    var p := w.requests[r].(pc := Answered(TokenUrl(Own(w, r).url.value)));
    assert RequestOK(Stepped(w, r, p), r);
    SteppedKeeps(w, r, p);
    var v := Stepped(w, r, p);
    assert AttemptOK(v, g);
    MovedKeeps(v, g, w.attempts[g].(url := None), w.f.state);
  }

  /** The sender's half of a rendezvous, then the receiver's. */
  lemma KeepsHandover(w: World, r: nat, g: nat, b: Attempt)
    requires Inv(w) && r in w.requests && w.requests[r].pc == Delivering(Some(g), Some(g)) && g in w.attempts
    requires var a := w.attempts[g];
             || (w.requests[r].call.SubmitCode? && a.phase.CodeBlocked?
                 && b == a.(phase := CodeReturned(true), codeFrom := Some(r)))
             || (w.requests[r].call.SubmitPassword? && a.phase.PassBlocked?
                 && b == a.(phase := PassReturned(true), passFrom := Some(r)))
    ensures Inv(Moved(Stepped(w, r, w.requests[r].(pc := Observing(Some(g), Some(g)))), g, b, w.f.state))
  {
    var p := w.requests[r].(pc := Observing(Some(g), Some(g)));
    assert RequestOK(w, r) && AttemptOK(w, g);
    SteppedKeeps(w, r, p);
    var v := Stepped(w, r, p);
    assert AttemptOK(v, g);
    assert Delivered(v, g, r);
    MovedKeeps(v, g, b, w.f.state);
  }

  lemma KeepsDeliver(w: World, r: nat)
    requires Inv(w) && Enabled(w, Deliver(r))
    ensures Inv(Apply(w, Deliver(r)))
  {
    var g := w.requests[r].pc.a.value;
    assert RequestOK(w, r);
    KeepsHandover(w, r, g, Apply(w, Deliver(r)).attempts[g]);
  }

  /** Taking an attempt's result from its done channel. */
  lemma KeepsResultTaken(w: World, r: nat, g: nat, answer: Answer)
    requires Inv(w) && r in w.requests && g in w.attempts && w.attempts[g].done.Some?
    requires w.requests[r].bound == Some(g)
    requires w.requests[r].pc.Selecting? || w.requests[r].pc.Delivering? || w.requests[r].pc.Observing?
    requires AnswerFits(w, w.requests[r], answer)
    ensures Inv(Moved(Stepped(w, r, w.requests[r].(pc := Answered(answer))), g,
                      w.attempts[g].(done := None, received := w.attempts[g].received + 1), w.f.state))
  {
    var p := w.requests[r].(pc := Answered(answer));
    assert RequestOK(w, r) && AttemptOK(w, g);
    assert RequestOK(Stepped(w, r, p), r);
    SteppedKeeps(w, r, p);
    var v := Stepped(w, r, p);
    assert AttemptOK(v, g);
    MovedKeeps(v, g, w.attempts[g].(done := None, received := w.attempts[g].received + 1), w.f.state);
  }

  /** Taking from done, for every request but a StartQR waiting for its predecessor. */
  lemma KeepsTakeOwnDone(w: World, r: nat)
    requires Inv(w) && Enabled(w, TakeDone(r)) && !At(w, r).AwaitPrev?
    ensures Inv(Apply(w, TakeDone(r)))
  {
    var g := DoneOf(w.requests[r]).value;
    assert RequestOK(w, r) && AttemptOK(w, g);
    KeepsResultTaken(w, r, g, DoTakeDone(w, r).requests[r].pc.answer);
  }

  // ----- the maker and its unlaunched attempt move together

  function Joined(w: World, g: nat, b: Attempt, r: nat, q: Request): World {
    w.(attempts := w.attempts[g := b], requests := w.requests[r := q])
  }

  /** r made g, g is not launched, and neither changes anything but its place. */
  predicate Together(w: World, g: nat, b: Attempt, r: nat, q: Request) {
    && g in w.attempts && r in w.requests
    && w.attempts[g].maker == r && w.requests[r].bound == Some(g)
    && (w.attempts[g].phase.Ready? || w.attempts[g].phase.Waiting?)
    && (w.requests[r].pc.Launching? || w.requests[r].pc.AwaitPrev?)
    && b == w.attempts[g].(phase := b.phase) && q == w.requests[r].(pc := q.pc)
  }

  lemma JoinedKeepsAttempt(w: World, g: nat, b: Attempt, r: nat, q: Request, h: nat)
    requires Together(w, g, b, r, q) && h in w.attempts && h != g && AttemptOK(w, h)
    ensures AttemptOK(Joined(w, g, b, r, q), h)
  {
  }

  lemma JoinedKeepsRequest(w: World, g: nat, b: Attempt, r: nat, q: Request, s: nat)
    requires Together(w, g, b, r, q) && s in w.requests && s != r && RequestOK(w, s)
    ensures RequestOK(Joined(w, g, b, r, q), s)
  {
  }

  lemma JoinedKeeps(w: World, g: nat, b: Attempt, r: nat, q: Request)
    requires Inv(w) && Together(w, g, b, r, q)
    requires var v := Joined(w, g, b, r, q); AttemptOK(v, g) && RequestOK(v, r)
    ensures Inv(Joined(w, g, b, r, q))
  {
    var v := Joined(w, g, b, r, q);
    forall h | h in v.attempts
      ensures AttemptOK(v, h)
    {
      if h != g {
        assert AttemptOK(w, h);
        JoinedKeepsAttempt(w, g, b, r, q, h);
      }
    }
    forall s | s in v.requests
      ensures RequestOK(v, s)
    {
      if s != r {
        assert RequestOK(w, s);
        JoinedKeepsRequest(w, g, b, r, q, s);
      }
    }
  }

  lemma KeepsLaunch(w: World, r: nat)
    requires Inv(w) && Enabled(w, Launch(r))
    ensures Inv(Apply(w, Launch(r)))
  {
    var g := w.requests[r].bound.value;
    var b := w.attempts[g].(phase := Running);
    var q := w.requests[r].(pc := Selecting);
    assert RequestOK(w, r) && AttemptOK(w, g);
    JoinedKeeps(w, g, b, r, q);
  }

  /** A waiting StartQR gives up: its attempt will never be launched. */
  lemma KeepsGiveUp(w: World, r: nat)
    requires Inv(w) && Enabled(w, TakeCtx(r)) && At(w, r).AwaitPrev?
    ensures Inv(Apply(w, TakeCtx(r)))
  {
    var g := w.requests[r].bound.value;
    var b := w.attempts[g].(phase := Unlaunched);
    var q := w.requests[r].(pc := Abandoning);
    assert RequestOK(w, r) && AttemptOK(w, g);
    JoinedKeeps(w, g, b, r, q);
  }

  lemma KeepsTakeCtx(w: World, r: nat)
    requires Inv(w) && Enabled(w, TakeCtx(r))
    ensures Inv(Apply(w, TakeCtx(r)))
  {
    if At(w, r).AwaitPrev? {
      KeepsGiveUp(w, r);
    } else {
      assert RequestOK(w, r);
      SteppedKeeps(w, r, Apply(w, TakeCtx(r)).requests[r]);
    }
  }

  /** A waiting StartQR learns that its predecessor has unwound. */
  lemma KeepsTakePrevDone(w: World, r: nat)
    requires Inv(w) && Enabled(w, TakeDone(r)) && At(w, r).AwaitPrev?
    ensures Inv(Apply(w, TakeDone(r)))
  {
    var g, p := w.requests[r].bound.value, At(w, r).prev;
    assert RequestOK(w, r) && AttemptOK(w, g) && AttemptOK(w, p);
    var drained := Apply(w, TakeDone(r)).attempts[p];
    MovedKeeps(w, p, drained, w.f.state);
    var u := Moved(w, p, drained, w.f.state);
    assert RequestOK(u, r) && AttemptOK(u, g);
    var b := u.attempts[g].(phase := Ready);
    var q := u.requests[r].(pc := Launching);
    JoinedKeeps(u, g, b, r, q);
  }

  lemma KeepsTakeDone(w: World, r: nat)
    requires Inv(w) && Enabled(w, TakeDone(r))
    ensures Inv(Apply(w, TakeDone(r)))
  {
    if At(w, r).AwaitPrev? {
      KeepsTakePrevDone(w, r);
    } else {
      KeepsTakeOwnDone(w, r);
    }
  }

  // ----- regions that replace the record

  /** What an attempt of the past keeps when the record moves to a new generation and its context
      is cancelled. */
  lemma DisownedKeepsAttempt(w: World, f: Rec, r: nat, q: Request, g: nat)
    requires w.f.Coherent() && g in w.attempts && AttemptOK(w, g)
    requires f.gen == w.f.gen + 1
    requires StepsWithReset(w, r, q) && (r in w.requests ==> RequestOK(w, r))
    ensures AttemptOK(Stepped(Disown(w, f), r, q), g)
  {
  }

  lemma DisownedKeepsRequest(w: World, f: Rec, r: nat, q: Request, s: nat)
    requires s in w.requests && s != r && RequestOK(w, s)
    ensures RequestOK(Stepped(Disown(w, f), r, q), s)
  {
  }

  /** Logout and an effective abandon: the record is reset and nothing takes its place. */
  lemma ResetKeeps(w: World, r: nat, q: Request)
    requires Inv(w) && StepsWithReset(w, r, q)
    requires RequestOK(Stepped(Disown(w, w.f.Logout()), r, q), r)
    ensures Inv(Stepped(Disown(w, w.f.Logout()), r, q))
  {
    var v := Stepped(Disown(w, w.f.Logout()), r, q);
    assert r in w.requests ==> RequestOK(w, r);
    forall g | g in v.attempts
      ensures AttemptOK(v, g)
    {
      assert AttemptOK(w, g);
      DisownedKeepsAttempt(w, w.f.Logout(), r, q, g);
    }
    forall s | s in v.requests
      ensures RequestOK(v, s)
    {
      if s != r {
        assert RequestOK(w, s);
        DisownedKeepsRequest(w, w.f.Logout(), r, q, s);
      }
    }
  }

  lemma KeepsAbandon(w: World, r: nat)
    requires Inv(w) && Enabled(w, Abandon(r))
    ensures Inv(Apply(w, Abandon(r)))
  {
    var q := w.requests[r].(pc := Answered(ContextError));
    assert RequestOK(w, r) && AttemptOK(w, w.requests[r].bound.value);
    if w.f.gen == w.requests[r].bound.value {
      ResetKeeps(w, r, q);
    } else {
      SteppedKeeps(w, r, q);
    }
  }

  lemma KeepsFinish(w: World, g: nat)
    requires Inv(w) && Enabled(w, Finish(g))
    ensures Inv(Apply(w, Finish(g)))
  {
    var b := w.attempts[g].(phase := Recorded(w.attempts[g].phase.result));
    assert AttemptOK(w, g);
    if w.f.gen != g {
      MovedKeeps(w, g, b, w.f.state);
    } else {
      FinishCurrentKeeps(w);
    }
  }

  /** The current attempt records its result. */
  lemma FinishCurrentKeeps(w: World)
    requires Inv(w) && Enabled(w, Finish(w.f.gen))
    ensures Inv(Apply(w, Finish(w.f.gen)))
  {
    var n := w.f.gen;
    var v := Apply(w, Finish(n));
    assert AttemptOK(w, n);
    forall g | g in v.attempts
      ensures AttemptOK(v, g)
    {
      assert AttemptOK(w, g);
    }
    forall s | s in v.requests
      ensures RequestOK(v, s)
    {
      assert RequestOK(w, s);
    }
  }

  /** A new current attempt. */
  function Renewed(w: World, f: Rec, a: Attempt, r: nat, q: Request): World {
    var v := Stepped(Disown(w, f), r, q);
    v.(attempts := v.attempts[f.gen := a])
  }

  lemma RenewedKeeps(w: World, f: Rec, a: Attempt, r: nat, q: Request)
    requires Inv(w) && f.Coherent() && f.gen == w.f.gen + 1 && f.inProgress
    requires r in w.requests && w.requests[r].pc.Start? && q.call == w.requests[r].call
    requires var v := Renewed(w, f, a, r, q); AttemptOK(v, f.gen) && RequestOK(v, r)
    ensures Inv(Renewed(w, f, a, r, q))
  {
    var u := Stepped(Disown(w, f), r, q);
    var v := Renewed(w, f, a, r, q);
    assert RequestOK(w, r);
    forall g | g in v.attempts
      ensures AttemptOK(v, g)
    {
      if g != f.gen {
        assert AttemptOK(w, g);
        DisownedKeepsAttempt(w, f, r, q, g);
        assert AttemptOK(u, g);
      }
    }
    forall s | s in v.requests
      ensures RequestOK(v, s)
    {
      if s != r {
        assert RequestOK(w, s);
        DisownedKeepsRequest(w, f, r, q, s);
        if w.requests[s].bound.Some? {
          assert AttemptOK(w, w.requests[s].bound.value);
        }
        assert RequestOK(u, s);
      }
    }
  }

  lemma KeepsStartLogin(w: World, r: nat)
    requires Inv(w) && Enabled(w, Enter(r)) && w.requests[r].call.StartLogin?
    ensures Inv(Apply(w, Enter(r)))
  {
    var v := Apply(w, Enter(r));
    assert RequestOK(w, r);
    if w.requests[r].call.phone == "" || w.f.inProgress {
      SteppedKeeps(w, r, v.requests[r]);
    } else {
      RenewedKeeps(w, w.f.WinStartLogin(), v.attempts[v.f.gen], r, v.requests[r]);
    }
  }

  lemma KeepsStartQR(w: World, r: nat)
    requires Inv(w) && Enabled(w, Enter(r)) && w.requests[r].call.StartQR?
    ensures Inv(Apply(w, Enter(r)))
  {
    var v := Apply(w, Enter(r));
    assert RequestOK(w, r);
    RenewedKeeps(w, w.f.StartQR(), v.attempts[v.f.gen], r, v.requests[r]);
  }

  lemma KeepsSubmit(w: World, r: nat)
    requires Inv(w) && Enabled(w, Enter(r)) && w.requests[r].call.Submits()
    ensures Inv(Apply(w, Enter(r)))
  {
    var v := Apply(w, Enter(r));
    assert RequestOK(w, r);
    if w.f.inProgress {
      assert AttemptOK(w, w.f.gen);
    }
    SteppedKeeps(w, r, v.requests[r]);
  }

  lemma KeepsEnter(w: World, r: nat)
    requires Inv(w) && Enabled(w, Enter(r))
    ensures Inv(Apply(w, Enter(r)))
  {
    match w.requests[r].call
    case StartLogin(_) => KeepsStartLogin(w, r);
    case StartQR => KeepsStartQR(w, r);
    case Logout =>
      assert RequestOK(w, r);
      ResetKeeps(w, r, w.requests[r].(pc := Answered(Succeeded)));
    case _ => KeepsSubmit(w, r);
  }

  lemma KeepsRequestEvent(w: World, e: Event)
    requires Inv(w) && Enabled(w, e) && e.OfRequest()
    ensures Inv(Apply(w, e))
  {
    match e
    case Arrive(r, c) => KeepsArrive(w, r, c);
    case CancelRequest(r) => KeepsCancelRequest(w, r);
    case Enter(r) => KeepsEnter(w, r);
    case Launch(r) => KeepsLaunch(w, r);
    case SeeCodeRequest(r) => KeepsSeeCodeRequest(w, r);
    case SeePassRequest(r) => KeepsSeePassRequest(w, r);
    case TakeUrl(r) => KeepsTakeUrl(w, r);
    case TakeDone(r) => KeepsTakeDone(w, r);
    case TakeCtx(r) => KeepsTakeCtx(w, r);
    case Abandon(r) => KeepsAbandon(w, r);
    case Deliver(r) => KeepsDeliver(w, r);
  }

  lemma KeepsGoroutineEvent(w: World, e: Event)
    requires Inv(w) && Enabled(w, e) && !e.OfRequest()
    ensures Inv(Apply(w, e))
  {
    match e
    case AskCode(g) => KeepsAskCode(w, g);
    case PublishCode(g) => KeepsPublishCode(w, g);
    case CloseCodeReq(g) => KeepsCloseCodeReq(w, g);
    case CodeCancelled(g) => KeepsCodeCancelled(w, g);
    case AskPassword(g) => KeepsAskPassword(w, g);
    case PublishPass(g) => KeepsPublishPass(w, g);
    case ClosePassReq(g) => KeepsClosePassReq(w, g);
    case PassCancelled(g) => KeepsPassCancelled(w, g);
    case ShowToken(g, u) => KeepsShowToken(w, g, u);
    case PutToken(g) => KeepsPutToken(w, g);
    case RunReturns(g, x) => KeepsRunReturns(w, g, x);
    case Finish(g) => KeepsFinish(w, g);
    case Send(g) => KeepsSend(w, g);
  }

  lemma Keeps(w: World, e: Event)
    requires Inv(w) && Enabled(w, e)
    ensures Inv(Apply(w, e))
  {
    if e.OfRequest() {
      KeepsRequestEvent(w, e);
    } else {
      KeepsGoroutineEvent(w, e);
    }
  }

  /** Every world a run reaches satisfies the invariant. */
  lemma {:induction false} Always(es: seq<Event>)
    requires Possible(es)
    ensures Inv(After(es))
    decreases |es|
  {
    if |es| > 0 {
      Always(es[..|es| - 1]);
      Keeps(After(es[..|es| - 1]), es[|es| - 1]);
    }
  }
}
