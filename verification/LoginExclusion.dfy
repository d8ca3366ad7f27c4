/** Whether two backend runs can overlap.

    A StartQR waits for the attempt it preempts, but a Logout and an abandon wait for nobody.  One
    of them harms if it throws an attempt away while some attempt may still run; exactly then an
    overlap can follow, and without such harm there never is one. */
module LoginExclusion {
  import opened Options
  import opened LoginFlow
  import opened LoginProtocol
  import opened LoginInvariant
  import opened LoginTheorems
  import opened LoginLiveness

  /** The goroutine of g is inside its backend. */
  predicate Inside(w: World, g: nat) {
    g in w.attempts && w.attempts[g].phase.InRun()
  }

  ghost predicate Overlap(w: World) {
    exists g, h :: g != h && Inside(w, g) && Inside(w, h)
  }

  /** It is inside, or on its way there: about to be launched, or waiting for a token that is not
      lost. */
  predicate MayRun(w: World, g: nat) {
    && g in w.attempts
    && match w.attempts[g].phase {
         case Ready => true
         case Waiting(_) => !Lost(w, g)
         case phase => phase.InRun()
       }
  }

  /** The event throws away an attempt that is in progress without anyone waiting for it. */
  predicate Tears(w: World, e: Event)
    requires Enabled(w, e)
  {
    && w.f.inProgress
    && (|| (e.Enter? && w.requests[e.r].call.Logout?)
        || (e.Abandon? && w.requests[e.r].bound == Some(w.f.gen)))
  }

  ghost predicate Harms(w: World, e: Event)
    requires Enabled(w, e)
  {
    Tears(w, e) && exists g :: MayRun(w, g)
  }

  ghost predicate NeverHarms(es: seq<Event>) {
    forall i | 0 <= i < |es| && Possible(es[..i]) && Enabled(After(es[..i]), es[i]) :: !Harms(After(es[..i]), es[i])
  }

  // ----- once out of the way, always out of the way

  lemma PastRunStaysForRequests(w: World, e: Event, g: nat)
    requires Inv(w) && Enabled(w, e) && e.OfRequest()
    requires g in w.attempts && w.attempts[g].phase.PastRun()
    ensures g in Apply(w, e).attempts && Apply(w, e).attempts[g].phase.PastRun()
  {
    assert AttemptOK(w, g);
    assert e.r in w.requests ==> RequestOK(w, e.r);
  }

  lemma PastRunStays(w: World, e: Event, g: nat)
    requires Inv(w) && Enabled(w, e) && g in w.attempts && w.attempts[g].phase.PastRun()
    ensures g in Apply(w, e).attempts && Apply(w, e).attempts[g].phase.PastRun()
  {
    if e.OfRequest() {
      PastRunStaysForRequests(w, e, g);
    }
  }

  lemma StaysOut(w: World, e: Event, g: nat)
    requires Inv(w) && Enabled(w, e) && g in w.attempts && !MayRun(w, g)
    ensures g in Apply(w, e).attempts && !MayRun(Apply(w, e), g)
  {
    if w.attempts[g].phase.PastRun() {
      PastRunStays(w, e, g);
    } else {
      assert AttemptOK(w, g);
      LostStays(w, e, g);
    }
  }

  // ----- attempts take turns

  /** Attempt h has not been launched unless g, an older one, is out of the way. */
  predicate InTurn(w: World, g: nat, h: nat)
    requires h in w.attempts
  {
    !MayRun(w, g) || w.attempts[h].phase.Pending()
  }

  /** Attempts run one after the other, and with nothing in progress none may run. */
  ghost predicate Orderly(w: World) {
    && (forall g, h {:trigger InTurn(w, g, h)} | g in w.attempts && h in w.attempts && g < h :: InTurn(w, g, h))
    && (!w.f.inProgress ==> forall g :: !MayRun(w, g))
  }

  /** A pending attempt stays pending, unless its maker has just received the token it waited for. */
  lemma PendingStays(w: World, e: Event, h: nat)
    requires Inv(w) && Enabled(w, e) && h in w.attempts && w.attempts[h].phase.Pending()
    ensures h in Apply(w, e).attempts
    ensures || Apply(w, e).attempts[h].phase.Pending()
            || (e.TakeDone? && At(w, e.r).AwaitPrev? && w.requests[e.r].bound == Some(h))
  {
    assert AttemptOK(w, h);
    assert e.OfRequest() && e.r in w.requests ==> RequestOK(w, e.r);
  }

  /** Had an older attempt still been on its way, the predecessor whose token a StartQR has received
      would not have been launched, let alone have exited. */
  lemma TurnPassesOn(w: World, r: nat, g: nat)
    requires Inv(w) && Orderly(w) && Enabled(w, TakeDone(r)) && At(w, r).AwaitPrev?
    requires g in w.attempts && g < w.requests[r].bound.value
    ensures !MayRun(w, g)
  {
    var h, p := w.requests[r].bound.value, At(w, r).prev;
    assert RequestOK(w, r) && AttemptOK(w, h) && AttemptOK(w, p);
    assert g < p ==> InTurn(w, g, p);
  }

  lemma OldInTurn(w: World, e: Event, g: nat, h: nat)
    requires Inv(w) && Orderly(w) && Enabled(w, e) && g in w.attempts && h in w.attempts && g < h
    ensures h in Apply(w, e).attempts && InTurn(Apply(w, e), g, h)
  {
    assert InTurn(w, g, h);
    if MayRun(w, g) {
      PendingStays(w, e, h);
      if e.TakeDone? && At(w, e.r).AwaitPrev? && w.requests[e.r].bound == Some(h) {
        TurnPassesOn(w, e.r, g);
      }
    } else {
      StaysOut(w, e, g);
      AttemptsStay(w, e, h);
    }
  }

  lemma AttemptsStay(w: World, e: Event, h: nat)
    requires Enabled(w, e) && h in w.attempts
    ensures h in Apply(w, e).attempts
  {
  }

  /** A new attempt waits, unless nothing was in progress. */
  lemma NewInTurn(w: World, e: Event, g: nat, h: nat)
    requires Inv(w) && Orderly(w) && Enabled(w, e)
    requires h !in w.attempts && h in Apply(w, e).attempts && g in w.attempts
    ensures InTurn(Apply(w, e), g, h)
  {
    if !w.f.inProgress {
      StaysOut(w, e, g);
    }
  }

  /** Only the current attempt's own finish and a tear leave nothing in progress. */
  lemma IdleMeansOut(w: World, e: Event, g: nat)
    requires Inv(w) && Orderly(w) && Enabled(w, e) && !Harms(w, e) && !Apply(w, e).f.inProgress
    requires g in w.attempts
    ensures !MayRun(w, g)
  {
    StepRefines(w, e);
    if w.f.inProgress && !Tears(w, e) {
      assert e == Finish(w.f.gen);
      assert AttemptOK(w, g);
      assert g < w.f.gen ==> InTurn(w, g, w.f.gen);
    }
  }

  lemma NothingNewWhenIdle(w: World, e: Event, g: nat)
    requires Enabled(w, e) && !Apply(w, e).f.inProgress && g in Apply(w, e).attempts
    ensures g in w.attempts
  {
  }

  lemma NewIsNewest(w: World, e: Event, h: nat)
    requires Inv(w) && Enabled(w, e) && h in Apply(w, e).attempts && h !in w.attempts
    ensures h == w.f.gen + 1 && forall g | g in Apply(w, e).attempts :: g <= h
  {
    forall g | g in w.attempts
      ensures g <= w.f.gen
    {
      assert AttemptOK(w, g);
    }
  }

  lemma KeepsOrder(w: World, e: Event)
    requires Inv(w) && Orderly(w) && Enabled(w, e) && !Harms(w, e)
    ensures Orderly(Apply(w, e))
  {
    var v := Apply(w, e);
    forall g, h | g in v.attempts && h in v.attempts && g < h
      ensures InTurn(v, g, h)
    {
      if h !in w.attempts {
        NewIsNewest(w, e, h);
        NewInTurn(w, e, g, h);
      } else {
        if g !in w.attempts {
          NewIsNewest(w, e, g);
        }
        OldInTurn(w, e, g, h);
      }
    }
    forall g | !v.f.inProgress && g in v.attempts
      ensures !MayRun(v, g)
    {
      NothingNewWhenIdle(w, e, g);
      IdleMeansOut(w, e, g);
      StaysOut(w, e, g);
    }
  }

  lemma {:induction false} AlwaysOrderly(es: seq<Event>)
    requires Possible(es) && NeverHarms(es)
    ensures Orderly(After(es))
    decreases |es|
  {
    if |es| > 0 {
      var before := es[..|es| - 1];
      assert forall i | 0 <= i <= |before| :: before[..i] == es[..i];
      Always(before);
      AlwaysOrderly(before);
      KeepsOrder(After(before), es[|es| - 1]);
    }
  }

  /** As long as no Logout and no abandon throws an attempt away while some attempt may still run,
      at most one backend run is executing, however long the chain of StartQR preemptions. */
  lemma AtMostOneRun(es: seq<Event>)
    requires Possible(es) && NeverHarms(es)
    ensures !Overlap(After(es))
  {
    AlwaysOrderly(es);
    forall g, h | g < h && g in After(es).attempts && h in After(es).attempts
      ensures !(Inside(After(es), g) && Inside(After(es), h))
    {
      assert InTurn(After(es), g, h);
    }
  }

  // ----- what may run can be made to run

  lemma BringIn(es: seq<Event>, g: nat) returns (more: seq<Event>)
    requires Possible(es) && MayRun(After(es), g)
    ensures Quietly(es, more, true) && Inside(After(more), g)
  {
    var w := After(es);
    Always(es);
    assert AttemptOK(w, g) && RequestOK(w, w.attempts[g].maker);
    assert es[..|es|] == es;
    var m := w.attempts[g].maker;
    if w.attempts[g].phase.Waiting? {
      var freed := Free(es, w.attempts[g].phase.prev);
      Always(freed);
      assert RequestOK(After(freed), m);
      var passed := Then(es, freed, TakeDone(m), true);
      more := Then(es, passed, Launch(m), true);
    } else if w.attempts[g].phase.Ready? {
      more := Then(es, es, Launch(m), true);
    } else {
      more := es;
    }
  }

  lemma {:induction false} OutForGood(es: seq<Event>, more: seq<Event>, g: nat)
    requires GoesOn(es, more) && g in After(es).attempts && !MayRun(After(es), g)
    ensures g in After(more).attempts && !MayRun(After(more), g)
    decreases |more|
  {
    if |more| == |es| {
      assert more == es;
    } else {
      var before := more[..|more| - 1];
      assert before[..|es|] == es;
      OutForGood(es, before, g);
      Always(before);
      StaysOut(After(before), more[|more| - 1], g);
    }
  }

  /** Exactly when an attempt can still be inside its backend: now or later. */
  lemma MayRunIff(es: seq<Event>, g: nat)
    requires Possible(es) && g in After(es).attempts
    ensures MayRun(After(es), g) <==> exists more :: GoesOn(es, more) && Inside(After(more), g)
  {
    if MayRun(After(es), g) {
      var more := BringIn(es, g);
    } else {
      forall more | GoesOn(es, more)
        ensures !Inside(After(more), g)
      {
        OutForGood(es, more, g);
      }
    }
  }

  // ----- harm can be seen

  ghost predicate NoTears(es: seq<Event>, from: nat) {
    forall i | from <= i < |es| && Possible(es[..i]) && Enabled(After(es[..i]), es[i]) :: !Tears(After(es[..i]), es[i])
  }

  lemma NoTearsThen(es: seq<Event>, from: nat, e: Event)
    requires Possible(es) && NoTears(es, from) && Enabled(After(es), e) && !Tears(After(es), e)
    ensures NoTears(es + [e], from)
  {
    var more := es + [e];
    forall i | from <= i < |more| && Possible(more[..i]) && Enabled(After(more[..i]), more[i])
      ensures !Tears(After(more[..i]), more[i])
    {
      if i < |es| {
        assert more[..i] == es[..i] && more[i] == es[i];
      } else {
        assert more[..i] == es;
      }
    }
  }

  /** A calm stretch starts nothing. */
  lemma {:induction false} CalmStaysIdle(es: seq<Event>, more: seq<Event>)
    requires Quietly(es, more, true) && !After(es).f.inProgress
    ensures !After(more).f.inProgress
    decreases |more|
  {
    if |more| == |es| {
      assert more == es;
    } else {
      var before := more[..|more| - 1];
      assert before[..|es|] == es;
      CalmStaysIdle(es, before);
    }
  }

  /** With nothing in progress, a StartLogin starts its run beside any that is still executing. */
  lemma StartBeside(es: seq<Event>, from: nat, g: nat) returns (more: seq<Event>)
    requires Possible(es) && !After(es).f.inProgress && Inside(After(es), g) && NoTears(es, from)
    ensures GoesOn(es, more) && NoTears(more, from) && Overlap(After(more))
  {
    var w := After(es);
    Always(es);
    assert AttemptOK(w, g);
    var k := Unused(w.requests.Keys);
    assert k !in w.requests;
    Extend(es, Arrive(k, StartLogin("+1")));
    NoTearsThen(es, from, Arrive(k, StartLogin("+1")));
    var asked := es + [Arrive(k, StartLogin("+1"))];
    Extend(asked, Enter(k));
    NoTearsThen(asked, from, Enter(k));
    var won := asked + [Enter(k)];
    Extend(won, Launch(k));
    NoTearsThen(won, from, Launch(k));
    more := won + [Launch(k)];
    assert more[..|es|] == es;
    assert Inside(After(more), g) && Inside(After(more), w.f.gen + 1);
  }

  lemma {:induction false} LostFollows(w: World, u: World, p: nat)
    requires w.attempts.Keys == u.attempts.Keys && Lost(u, p)
    requires forall g | g in w.attempts ::
               u.attempts[g].phase == w.attempts[g].phase && u.attempts[g].done == w.attempts[g].done
    ensures Lost(w, p)
    decreases p
  {
    if w.attempts[p].phase.Waiting? {
      LostFollows(w, u, w.attempts[p].phase.prev);
    }
  }

  lemma TearLeavesPhases(w: World, e: Event, g: nat)
    requires Enabled(w, e) && Tears(w, e) && MayRun(w, g)
    ensures MayRun(Apply(w, e), g) && !Apply(w, e).f.inProgress
  {
    if w.attempts[g].phase.Waiting? && Lost(Apply(w, e), g) {
      LostFollows(w, Apply(w, e), g);
    }
  }

  /** An overlap after the tear e, without another one. */
  ghost predicate Overlaps(es: seq<Event>, e: Event, more: seq<Event>) {
    GoesOn(es + [e], more) && NoTears(more, |es| + 1) && Overlap(After(more))
  }

  /** After a tear that harms, two runs can overlap, and it takes no second tear. */
  lemma OverlapCanFollow(es: seq<Event>, e: Event, g: nat) returns (more: seq<Event>)
    requires Possible(es) && Enabled(After(es), e) && Tears(After(es), e) && MayRun(After(es), g)
    ensures Overlaps(es, e, more)
  {
    var torn := es + [e];
    Extend(es, e);
    TearLeavesPhases(After(es), e, g);
    var inside := BringIn(torn, g);
    CalmStaysIdle(torn, inside);
    more := StartBeside(inside, |torn|, g);
    assert more[..|torn|] == more[..|inside|][..|torn|];
  }

  lemma PrefixOfPrefix<T>(xs: seq<T>, more: seq<T>, i: nat)
    requires i < |xs| <= |more| && more[..|xs|] == xs
    ensures more[..i] == xs[..i] && more[i] == xs[i]
  {
    assert more[i] == more[..|xs|][i];
  }

  /** A run that is harmless up to a tear that does no harm, and has no other tear, is harmless. */
  lemma HarmlessOn(es: seq<Event>, e: Event, more: seq<Event>)
    requires Possible(es) && NeverHarms(es) && Enabled(After(es), e) && !Harms(After(es), e)
    requires GoesOn(es + [e], more) && NoTears(more, |es| + 1)
    ensures NeverHarms(more)
  {
    var torn := es + [e];
    forall i | 0 <= i < |more| && Possible(more[..i]) && Enabled(After(more[..i]), more[i])
      ensures !Harms(After(more[..i]), more[i])
    {
      if i < |torn| {
        PrefixOfPrefix(torn, more, i);
        assert torn[..i] == es[..i] && es[..|es|] == es;
      }
    }
  }

  lemma NoHarmNoOverlap(es: seq<Event>, e: Event, more: seq<Event>)
    requires Possible(es) && NeverHarms(es) && Enabled(After(es), e) && !Harms(After(es), e)
    ensures !Overlaps(es, e, more)
  {
    if GoesOn(es + [e], more) && NoTears(more, |es| + 1) {
      HarmlessOn(es, e, more);
      AtMostOneRun(more);
    }
  }

  /** The condition is exact: in a run without harm so far, a tear can be followed by an overlap, with
      no other tear, if and only if some attempt might still have run when it came. */
  lemma OverlapIffHarm(es: seq<Event>, e: Event)
    requires Possible(es) && NeverHarms(es) && Enabled(After(es), e) && Tears(After(es), e)
    ensures Harms(After(es), e) <==> exists more :: Overlaps(es, e, more)
  {
    if Harms(After(es), e) {
      var g :| MayRun(After(es), g);
      var more := OverlapCanFollow(es, e, g);
      assert Overlaps(es, e, more);
    } else {
      forall more
        ensures !Overlaps(es, e, more)
      {
        NoHarmNoOverlap(es, e, more);
      }
    }
  }

  /** For instance, a Logout lets the next login start its run beside the old one. */
  lemma OverlapAfterLogout() returns (es: seq<Event>)
    ensures Possible(es)
    ensures var w := After(es);
            && 1 in w.attempts && 3 in w.attempts && w.attempts[1].phase.InRun() && w.attempts[3].phase.InRun()
  {
    es := Begun(0);
    Extend(es, Arrive(1, Logout));
    es := es + [Arrive(1, Logout)];
    Extend(es, Enter(1));
    es := es + [Enter(1)];
    Extend(es, Arrive(2, StartLogin("+1")));
    es := es + [Arrive(2, StartLogin("+1"))];
    Extend(es, Enter(2));
    es := es + [Enter(2)];
    Extend(es, Launch(2));
    es := es + [Launch(2)];
  }

}
