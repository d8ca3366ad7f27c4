/** What a login can come to.

    The safety theorems would hold of a service that never lets anyone in.  Here is what it does
    let happen: from every world in which a call may expect something, there is a way on to it in
    which no request's context ends and, once the call is in, no region is entered that could take
    the login away. */
module LoginProgress {
  import opened Options
  import opened LoginFlow
  import opened LoginProtocol
  import opened LoginInvariant
  import opened LoginTheorems
  import opened LoginLiveness

  /** The call is bound to the current attempt and at the given place. */
  predicate Current(w: World, r: nat) {
    Bound(w, r) && w.requests[r].bound == Some(w.f.gen)
  }

  /** What a call is told, and the state the record is left in, when the run returns x. */
  function EndAnswer(x: RunResult): Answer {
    match x
    case Authorized => Succeeded
    case Rejected(why) => AttemptFailed(why)
  }

  function EndState(x: RunResult): LoginState {
    if x.Authorized? then LoggedIn else LoggedOut
  }

  // ----- codes

  /** A SubmitCode that is about to hand its code to the current attempt, which waits for one. */
  predicate HasCode(w: World, r: nat) {
    && w.f.state.WaitCode? && Current(w, r)
    && w.requests[r].call.SubmitCode? && At(w, r).Delivering?
  }

  predicate HasPassword(w: World, r: nat) {
    && w.f.state.WaitPassword? && Current(w, r)
    && w.requests[r].call.SubmitPassword? && At(w, r).Delivering?
  }

  /** The value has been handed over: the call observes and the backend goes on. */
  predicate HandedOver(w: World, r: nat, phase: Phase) {
    && Current(w, r) && w.f.inProgress && At(w, r).Observing? && At(w, r).d == w.requests[r].bound
    && At(w, r).a == w.requests[r].bound
    && Own(w, r).kind.CodeLogin? && Own(w, r).phase == phase && Own(w, r).done.None?
  }

  lemma CodeMoves(w: World, r: nat)
    requires Inv(w) && HasCode(w, r) && Own(w, r).codeFrom.None?
    ensures Own(w, r).phase.CodePublished? || Own(w, r).phase.CodeBlocked?
    ensures Own(w, r).phase.CodePublished? ==>
              Enabled(w, CloseCodeReq(w.f.gen)) && HasCode(Apply(w, CloseCodeReq(w.f.gen)), r)
    ensures Own(w, r).phase.CodeBlocked? ==>
              && Enabled(w, Deliver(r))
              && var v := Apply(w, Deliver(r));
                 && HandedOver(v, r, CodeReturned(true)) && Own(v, r).codeFrom == Some(r)
                 && v.f == w.f && v.requests[r].call == w.requests[r].call && Own(v, r).passFrom.None?
  {
    assert RequestOK(w, r) && AttemptOK(w, w.f.gen);
  }

  lemma PassMoves(w: World, r: nat)
    requires Inv(w) && HasPassword(w, r) && Own(w, r).passFrom.None?
    ensures Own(w, r).phase.PassPublished? || Own(w, r).phase.PassBlocked?
    ensures Own(w, r).phase.PassPublished? ==>
              Enabled(w, ClosePassReq(w.f.gen)) && HasPassword(Apply(w, ClosePassReq(w.f.gen)), r)
    ensures Own(w, r).phase.PassBlocked? ==>
              && Enabled(w, Deliver(r))
              && var v := Apply(w, Deliver(r));
                 && HandedOver(v, r, PassReturned(true)) && Own(v, r).passFrom == Some(r)
                 && v.f == w.f && v.requests[r].call == w.requests[r].call
  {
    assert RequestOK(w, r) && AttemptOK(w, w.f.gen);
  }

  lemma CodeIsTaken(es: seq<Event>, r: nat) returns (more: seq<Event>)
    requires Possible(es) && HasCode(After(es), r) && Own(After(es), r).codeFrom.None?
    ensures Quietly(es, more, true) && HandedOver(After(more), r, CodeReturned(true))
    ensures After(more).f == After(es).f && After(more).requests[r].call == After(es).requests[r].call
    ensures Own(After(more), r).codeFrom == Some(r) && Own(After(more), r).passFrom.None?
  {
    Always(es);
    CodeMoves(After(es), r);
    assert es[..|es|] == es;
    var ready := es;
    if Own(After(es), r).phase.CodePublished? {
      ready := Then(es, es, CloseCodeReq(After(es).f.gen), true);
      CodeMoves(After(ready), r);
    }
    more := Then(es, ready, Deliver(r), true);
  }

  lemma PasswordIsTaken(es: seq<Event>, r: nat) returns (more: seq<Event>)
    requires Possible(es) && HasPassword(After(es), r) && Own(After(es), r).passFrom.None?
    ensures Quietly(es, more, true) && HandedOver(After(more), r, PassReturned(true))
    ensures After(more).f == After(es).f && After(more).requests[r].call == After(es).requests[r].call
    ensures Own(After(more), r).passFrom == Some(r)
  {
    Always(es);
    PassMoves(After(es), r);
    assert es[..|es|] == es;
    var ready := es;
    if Own(After(es), r).phase.PassPublished? {
      ready := Then(es, es, ClosePassReq(After(es).f.gen), true);
      PassMoves(After(ready), r);
    }
    more := Then(es, ready, Deliver(r), true);
  }

  /** The three moves with which the current attempt ends, seen as one. */
  function Finished(w: World, x: RunResult): World
    requires w.f.gen in w.attempts
  {
    var g := w.f.gen;
    w.(f := w.f.Finish(g, x),
       attempts := w.attempts[g := w.attempts[g].(phase := Exited(x), done := Some(x), sent := 1, cancelled := true)])
  }

  lemma FinishMoves(w: World, x: RunResult)
    requires Inv(w) && w.f.inProgress && w.f.gen in w.attempts && w.attempts[w.f.gen].phase.MayReturn()
    ensures var g := w.f.gen;
            && Enabled(w, RunReturns(g, x))
            && var u := Apply(w, RunReturns(g, x));
               && Enabled(u, Finish(g))
               && var v := Apply(u, Finish(g));
                  Enabled(v, Send(g)) && Apply(v, Send(g)) == Finished(w, x)
  {
    assert AttemptOK(w, w.f.gen);
  }

  /** The current attempt's backend returns x: the result is recorded and left in done, and nothing
      else that anyone could see has changed. */
  lemma Finishes(es: seq<Event>, x: RunResult) returns (more: seq<Event>)
    requires Possible(es) && After(es).f.inProgress && After(es).f.gen in After(es).attempts
    requires After(es).attempts[After(es).f.gen].phase.MayReturn()
    ensures Quietly(es, more, true) && After(more) == Finished(After(es), x)
  {
    var g := After(es).f.gen;
    Always(es);
    FinishMoves(After(es), x);
    assert es[..|es|] == es;
    var returned := Then(es, es, RunReturns(g, x), true);
    var recorded := Then(es, returned, Finish(g), true);
    more := Then(es, recorded, Send(g), true);
  }

  /** The backend returns x, and the observing call is told so. */
  lemma RunEnds(es: seq<Event>, r: nat, phase: Phase, x: RunResult) returns (more: seq<Event>)
    requires Possible(es) && HandedOver(After(es), r, phase) && phase.MayReturn()
    ensures Quietly(es, more, true) && Bound(After(more), r)
    ensures At(After(more), r) == Answered(EndAnswer(x)) && After(more).f.state == EndState(x)
    ensures Own(After(more), r).codeFrom == Own(After(es), r).codeFrom
    ensures Own(After(more), r).passFrom == Own(After(es), r).passFrom
  {
    Always(es);
    assert RequestOK(After(es), r);
    var done := Finishes(es, x);
    more := Then(es, done, TakeDone(r), true);
  }

  /** A code submitted to a login that waits for one can reach it, and whatever the backend makes of
      it is what the call is told. */
  lemma CodeCanLogIn(es: seq<Event>, r: nat, x: RunResult) returns (more: seq<Event>)
    requires Possible(es) && HasCode(After(es), r) && Own(After(es), r).codeFrom.None?
    ensures Quietly(es, more, true) && Bound(After(more), r) && Own(After(more), r).codeFrom == Some(r)
    ensures At(After(more), r) == Answered(EndAnswer(x)) && After(more).f.state == EndState(x)
  {
    var taken := CodeIsTaken(es, r);
    more := RunEnds(taken, r, CodeReturned(true), x);
    QuietlyOn(es, taken, more, true);
  }

  lemma PasswordMoves(w: World, r: nat)
    requires HandedOver(w, r, CodeReturned(true)) && w.requests[r].call.SubmitCode?
    ensures var g := w.f.gen;
            && Enabled(w, AskPassword(g))
            && var u := Apply(w, AskPassword(g));
               && Enabled(u, PublishPass(g))
               && var v := Apply(u, PublishPass(g));
                  && Enabled(v, ClosePassReq(g))
                  && var x := Apply(v, ClosePassReq(g));
                     && Enabled(x, SeePassRequest(r))
                     && var z := Apply(x, SeePassRequest(r));
                        && Current(z, r) && At(z, r) == Answered(PasswordNeeded) && z.f.state.WaitPassword?
                        && Own(z, r).codeFrom == Own(w, r).codeFrom && Own(z, r).passFrom == Own(w, r).passFrom
  {
  }

  /** Or the account has a password, the call is told so, and the login waits for it. */
  lemma CodeCanAskForPassword(es: seq<Event>, r: nat) returns (more: seq<Event>)
    requires Possible(es) && HasCode(After(es), r) && Own(After(es), r).codeFrom.None?
    ensures Quietly(es, more, true) && Current(After(more), r) && Own(After(more), r).codeFrom == Some(r)
    ensures At(After(more), r) == Answered(PasswordNeeded) && After(more).f.state.WaitPassword?
    ensures Own(After(more), r).passFrom.None?
  {
    var g := After(es).f.gen;
    var taken := CodeIsTaken(es, r);
    PasswordMoves(After(taken), r);
    var asked := Then(es, taken, AskPassword(g), true);
    var published := Then(es, asked, PublishPass(g), true);
    var blocked := Then(es, published, ClosePassReq(g), true);
    more := Then(es, blocked, SeePassRequest(r), true);
  }

  lemma PasswordCanLogIn(es: seq<Event>, r: nat, x: RunResult) returns (more: seq<Event>)
    requires Possible(es) && HasPassword(After(es), r) && Own(After(es), r).passFrom.None?
    ensures Quietly(es, more, true) && Bound(After(more), r) && Own(After(more), r).passFrom == Some(r)
    ensures At(After(more), r) == Answered(EndAnswer(x)) && After(more).f.state == EndState(x)
  {
    var taken := PasswordIsTaken(es, r);
    more := RunEnds(taken, r, PassReturned(true), x);
    QuietlyOn(es, taken, more, true);
  }

  // ----- only one call can hand over

  lemma FromStaysWhenDelivered(w: World, e: Event, g: nat)
    requires Inv(w) && Enabled(w, e) && e.Deliver? && g in w.attempts
    ensures g in Apply(w, e).attempts
    ensures w.attempts[g].codeFrom.Some? ==> Apply(w, e).attempts[g].codeFrom == w.attempts[g].codeFrom
    ensures w.attempts[g].passFrom.Some? ==> Apply(w, e).attempts[g].passFrom == w.attempts[g].passFrom
  {
    assert AttemptOK(w, g) && RequestOK(w, e.r);
  }

  /** Who delivered a value is never forgotten or replaced. */
  lemma FromStays(w: World, e: Event, g: nat)
    requires Inv(w) && Enabled(w, e) && g in w.attempts
    ensures g in Apply(w, e).attempts
    ensures w.attempts[g].codeFrom.Some? ==> Apply(w, e).attempts[g].codeFrom == w.attempts[g].codeFrom
    ensures w.attempts[g].passFrom.Some? ==> Apply(w, e).attempts[g].passFrom == w.attempts[g].passFrom
  {
    assert AttemptOK(w, g);
    if e.Deliver? {
      FromStaysWhenDelivered(w, e, g);
    }
  }

  lemma {:induction false} FromLasts(es: seq<Event>, more: seq<Event>, g: nat)
    requires GoesOn(es, more) && g in After(es).attempts
    ensures g in After(more).attempts
    ensures After(es).attempts[g].codeFrom.Some? ==>
              After(more).attempts[g].codeFrom == After(es).attempts[g].codeFrom
    ensures After(es).attempts[g].passFrom.Some? ==>
              After(more).attempts[g].passFrom == After(es).attempts[g].passFrom
    decreases |more|
  {
    if |more| == |es| {
      assert more == es;
    } else {
      var before := more[..|more| - 1];
      assert before[..|es|] == es;
      FromLasts(es, before, g);
      Always(before);
      FromStays(After(before), more[|more| - 1], g);
    }
  }

  /** The call's value is the one its attempt has received. */
  ghost predicate CodeArrives(more: seq<Event>, r: nat, g: nat) {
    Possible(more) && g in After(more).attempts && After(more).attempts[g].codeFrom == Some(r)
  }

  ghost predicate PasswordArrives(more: seq<Event>, r: nat, g: nat) {
    Possible(more) && g in After(more).attempts && After(more).attempts[g].passFrom == Some(r)
  }

  /** Exactly when a submitted code can reach the login it was submitted to: while no other call's
      has.  Two calls may have seen the login wait, and only one of them is served. */
  lemma CodeArrivesIff(es: seq<Event>, r: nat)
    requires Possible(es) && HasCode(After(es), r)
    ensures Own(After(es), r).codeFrom.None?
            <==> exists more :: Quietly(es, more, true) && CodeArrives(more, r, After(es).f.gen)
  {
    var w := After(es);
    var g := w.f.gen;
    if w.attempts[g].codeFrom.None? {
      var more := CodeIsTaken(es, r);
      assert CodeArrives(more, r, g);
    } else {
      Always(es);
      assert AttemptOK(w, g) && RequestOK(w, r);
      forall more | Quietly(es, more, true)
        ensures !CodeArrives(more, r, g)
      {
        FromLasts(es, more, g);
      }
    }
  }

  lemma PasswordArrivesIff(es: seq<Event>, r: nat)
    requires Possible(es) && HasPassword(After(es), r)
    ensures Own(After(es), r).passFrom.None?
            <==> exists more :: Quietly(es, more, true) && PasswordArrives(more, r, After(es).f.gen)
  {
    var w := After(es);
    var g := w.f.gen;
    if w.attempts[g].passFrom.None? {
      var more := PasswordIsTaken(es, r);
      assert PasswordArrives(more, r, g);
    } else {
      Always(es);
      assert AttemptOK(w, g) && RequestOK(w, r);
      forall more | Quietly(es, more, true)
        ensures !PasswordArrives(more, r, g)
      {
        FromLasts(es, more, g);
      }
    }
  }

  /** Two SubmitCode calls at once: both saw the login wait, and the first has been served. */
  lemma SecondCodeComesLate() returns (es: seq<Event>)
    ensures Possible(es) && HasCode(After(es), 2) && Own(After(es), 2).codeFrom == Some(1)
  {
    es := Begun(0);
    Extend(es, AskCode(1));
    es := es + [AskCode(1)];
    Extend(es, PublishCode(1));
    es := es + [PublishCode(1)];
    Extend(es, CloseCodeReq(1));
    es := es + [CloseCodeReq(1)];
    es := Entered(es, 1, SubmitCode("1"));
    es := Entered(es, 2, SubmitCode("2"));
    Extend(es, Deliver(1));
    es := es + [Deliver(1)];
  }

  lemma Entered(es: seq<Event>, r: nat, call: Call) returns (more: seq<Event>)
    requires Possible(es) && r !in After(es).requests
    ensures Possible(more)
    ensures var asked := After(es).(requests := After(es).requests[r := Request(call, false, Start, None)]);
            After(more) == DoEnter(asked, r)
  {
    Extend(es, Arrive(r, call));
    more := es + [Arrive(r, call)];
    Extend(more, Enter(r));
    more := more + [Enter(r)];
  }

  // ----- starting a login

  /** The call has made the attempt that is current and is about to launch it. */
  predicate Launches(w: World, r: nat) {
    && Current(w, r) && At(w, r).Launching?
  }

  /** With nothing in progress, StartLogin and StartQR get to launch their own attempt. */
  lemma StartIsGranted(es: seq<Event>, r: nat) returns (more: seq<Event>)
    requires Possible(es) && r in After(es).requests && At(After(es), r).Start? && !After(es).f.inProgress
    requires var c := After(es).requests[r].call; (c.StartLogin? && c.phone != "") || c.StartQR?
    ensures Quietly(es, more) && Launches(After(more), r)
    ensures After(more).requests[r].call == After(es).requests[r].call
  {
    assert es[..|es|] == es;
    Always(es);
    more := Then(es, es, Enter(r));
  }

  /** The attempt has been launched, and has done nothing yet. */
  lemma JustLaunched(es: seq<Event>, r: nat) returns (more: seq<Event>)
    requires Possible(es) && Launches(After(es), r)
    ensures Quietly(es, more, true) && Current(After(more), r) && After(more).f == After(es).f
    ensures At(After(more), r).Selecting? && After(more).requests[r].call == After(es).requests[r].call
    ensures Own(After(more), r).phase.Running? && Own(After(more), r).url.None? && !Own(After(more), r).cancelled
    ensures Own(After(more), r).kind == (if After(es).requests[r].call.StartQR? then QrLogin else CodeLogin)
    ensures After(more).f.inProgress && Own(After(more), r).codeFrom.None? && Own(After(more), r).done.None?
  {
    var g := After(es).f.gen;
    Always(es);
    assert RequestOK(After(es), r) && AttemptOK(After(es), g);
    assert es[..|es|] == es;
    more := Then(es, es, Launch(r), true);
  }

  lemma AskMoves(w: World, r: nat)
    requires Current(w, r) && At(w, r).Selecting? && w.requests[r].call.StartLogin?
    requires In(w, w.f.gen, CodeLogin, Running) && Own(w, r).codeFrom.None?
    ensures var g := w.f.gen;
            && Enabled(w, AskCode(g))
            && var u := Apply(w, AskCode(g));
               && Enabled(u, PublishCode(g))
               && var v := Apply(u, PublishCode(g));
                  && Enabled(v, CloseCodeReq(g))
                  && var x := Apply(v, CloseCodeReq(g));
                     && Enabled(x, SeeCodeRequest(r))
                     && var z := Apply(x, SeeCodeRequest(r));
                        && Current(z, r) && At(z, r) == Answered(Succeeded) && z.f.state.WaitCode?
                        && Own(z, r).codeFrom.None?
  {
  }

  /** A code login that is launched can come to wait for a code, and its StartLogin is told so. */
  lemma CodeCanBeAskedFor(es: seq<Event>, r: nat) returns (more: seq<Event>)
    requires Possible(es) && Launches(After(es), r) && After(es).requests[r].call.StartLogin?
    ensures Quietly(es, more, true) && Current(After(more), r)
    ensures At(After(more), r) == Answered(Succeeded) && After(more).f.state.WaitCode?
    ensures Own(After(more), r).codeFrom.None?
  {
    var g := After(es).f.gen;
    var launched := JustLaunched(es, r);
    AskMoves(After(launched), r);
    var asked := Then(es, launched, AskCode(g), true);
    var published := Then(es, asked, PublishCode(g), true);
    var blocked := Then(es, published, CloseCodeReq(g), true);
    more := Then(es, blocked, SeeCodeRequest(r), true);
  }

  /** It can also end before it asks for anything: the session is authorized, or the code could not
      be sent. */
  lemma LaunchCanEnd(es: seq<Event>, r: nat, x: RunResult) returns (more: seq<Event>)
    requires Possible(es) && Launches(After(es), r)
    ensures Quietly(es, more, true) && After(more).f.state == EndState(x) && r in After(more).requests
    ensures At(After(more), r) == Answered(
              if After(es).requests[r].call.StartQR? && x.Authorized? then TokenUrl("") else EndAnswer(x))
  {
    var launched := JustLaunched(es, r);
    var done := Finishes(launched, x);
    QuietlyOn(es, launched, done, true);
    more := Then(es, done, TakeDone(r), true);
  }

  /** A StartQR that waits for an attempt whose token is not lost gets to launch its own, as long as
      nobody preempts it in turn. */
  lemma PreemptionIsGranted(es: seq<Event>, r: nat) returns (more: seq<Event>)
    requires Possible(es) && Current(After(es), r) && At(After(es), r).AwaitPrev?
    requires !Lost(After(es), At(After(es), r).prev)
    ensures Quietly(es, more, true) && Launches(After(more), r)
    ensures After(more).requests[r].call == After(es).requests[r].call
  {
    var g := After(es).f.gen;
    Always(es);
    assert RequestOK(After(es), r) && AttemptOK(After(es), g);
    var freed := Free(es, At(After(es), r).prev);
    Always(freed);
    assert RequestOK(After(freed), r);
    more := Then(es, freed, TakeDone(r), true);
  }

  lemma TokenMoves(w: World, r: nat, url: string)
    requires Current(w, r) && At(w, r).Selecting? && w.requests[r].call.StartQR?
    requires In(w, w.f.gen, QrLogin, Running) && Own(w, r).url.None? && !Own(w, r).cancelled
    ensures var g := w.f.gen;
            && Enabled(w, ShowToken(g, url))
            && var u := Apply(w, ShowToken(g, url));
               && Enabled(u, PutToken(g))
               && var v := Apply(u, PutToken(g));
                  && Enabled(v, TakeUrl(r))
                  && var z := Apply(v, TakeUrl(r));
                     && Current(z, r) && z.f == w.f && At(z, r) == Answered(TokenUrl(url))
                     && Own(z, r).phase.Running?
  {
  }

  /** A QR login that is launched can show its token, whatever it is, to the call that started it. */
  lemma UrlCanBeShown(es: seq<Event>, r: nat, url: string) returns (more: seq<Event>)
    requires Possible(es) && Launches(After(es), r) && After(es).requests[r].call.StartQR?
    ensures Quietly(es, more, true) && Current(After(more), r) && After(more).f.inProgress
    ensures At(After(more), r) == Answered(TokenUrl(url)) && Own(After(more), r).phase.Running?
  {
    var g := After(es).f.gen;
    var launched := JustLaunched(es, r);
    TokenMoves(After(launched), r, url);
    var shown := Then(es, launched, ShowToken(g, url), true);
    var put := Then(es, shown, PutToken(g), true);
    more := Then(es, put, TakeUrl(r), true);
  }

  /** And once the token is scanned the state is logged_in, or logged_out if that failed. */
  lemma ScanCanLogIn(es: seq<Event>, r: nat, x: RunResult) returns (more: seq<Event>)
    requires Possible(es) && Current(After(es), r) && After(es).f.inProgress && Own(After(es), r).phase.Running?
    ensures Quietly(es, more, true) && After(more).f.state == EndState(x)
  {
    more := Finishes(es, x);
  }
}
