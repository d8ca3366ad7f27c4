/** The retry loop of internal/telegram/retry/retry.go and the flood-wait middleware of
    internal/telegram/client/client.go.

    What a callback does to the world around it is a function on worlds of any type S, and so are
    the two things a loop learns from its context: whether it is done, and whether a wait ran its
    time or was cut short.  Every schedule of failures and cancellations is some such world. */
module Retry {
  import opened Durations

  datatype Error = CtxDone | FloodWait(asked: Duration) | Other(code: int)

  datatype Outcome = Ok | Err(error: Error)
  {
    predicate Flood() { Err? && error.FloodWait? }
  }

  datatype Env<!S> = Env(
    ctxDone: S -> bool,             // ctx.Err() != nil
    fn: S -> (S, Outcome),          // the callback
    wait: (S, int) -> (S, bool))    // the select: true when the timer fired

  datatype Policy = Policy(maxAttempts: int, base: Duration, max: Duration)

  function Attempts(p: Policy): (n: nat)
    ensures n >= 1
  {
    if p.maxAttempts < 1 then 1 else p.maxAttempts
  }

  /** What a loop did: the outcome of each call, the waits it began, and how it ended. */
  datatype Report<S> = Report(world: S, result: Outcome, outcomes: seq<Outcome>, waits: seq<int>)

  function After<S>(outcomes: seq<Outcome>, waits: seq<int>, rest: Report<S>): Report<S> {
    rest.(outcomes := outcomes + rest.outcomes, waits := waits + rest.waits)
  }

  lemma AfterAfter<S>(os: seq<Outcome>, ws: seq<int>, out: Outcome, d: int, rest: Report<S>)
    ensures After(os, ws, After([out], [d], rest)) == After(os + [out], ws + [d], rest)
  {
    assert os + ([out] + rest.outcomes) == os + [out] + rest.outcomes;
    assert ws + ([d] + rest.waits) == ws + [d] + rest.waits;
  }

  /** Whole seconds of a FLOOD_WAIT, cut toward zero. */
  function FloodWaitSeconds(e: Error): (s: int)
    ensures -TWO_63 <= s * SECOND < TWO_63
  {
    if !e.FloodWait? then 0
    else
      var asked: int := e.asked;
      if asked >= 0 then asked / SECOND else -((-asked) / SECOND)
  }

  /** They are the seconds nearest to zero that are less than one away from what was asked. */
  lemma SecondsAreCut(e: Error)
    ensures var s := FloodWaitSeconds(e) * SECOND;
            && (!e.FloodWait? ==> s == 0)
            && (e.FloodWait? && e.asked >= 0 ==> s <= e.asked < s + SECOND)
            && (e.FloodWait? && e.asked < 0 ==> s - SECOND < e.asked <= s)
  {
  }

  function WaitAfter(p: Policy, attempt: nat, e: Error): Duration {
    if e.FloodWait? then FloodWaitSeconds(e) * SECOND else Delay(attempt, p.base, p.max)
  }

  // ----- Do

  function DoFrom<S>(env: Env<S>, p: Policy, w: S, attempt: nat): Report<S>
    requires attempt < Attempts(p)
    decreases Attempts(p) - attempt
  {
    if env.ctxDone(w) then Report(w, Err(CtxDone), [], [])
    else
      var (w1, out) := env.fn(w);
      if out.Ok? || attempt == Attempts(p) - 1 then Report(w1, out, [out], [])
      else
        var d := WaitAfter(p, attempt, out.error);
        var (w2, fired) := env.wait(w1, d);
        if !fired then Report(w2, Err(CtxDone), [out], [d])
        else After([out], [d], DoFrom(env, p, w2, attempt + 1))
  }

  method Do<S>(env: Env<S>, p: Policy, start: S)
    returns (w: S, err: Outcome, ghost os: seq<Outcome>, ghost ws: seq<int>)
    ensures w == DoFrom(env, p, start, 0).world && err == DoFrom(env, p, start, 0).result
    ensures os == DoFrom(env, p, start, 0).outcomes && ws == DoFrom(env, p, start, 0).waits
  {
    var attempts := p.maxAttempts;
    if attempts < 1 {
      attempts := 1;
    }
    w, err, os, ws := start, Ok, [], [];
    var attempt := 0;
    while attempt < attempts
      invariant 0 <= attempt < attempts == Attempts(p)
      invariant DoFrom(env, p, start, 0) == After(os, ws, DoFrom(env, p, w, attempt))
      decreases attempts - attempt
    {
      if env.ctxDone(w) {
        err := Err(CtxDone);
        return;
      }
      var (w1, out) := env.fn(w);
      w, err := w1, out;
      if out.Ok? {
        os := os + [out];
        return;
      }
      if attempt == attempts - 1 {
        os := os + [out];
        break;
      }
      var d := Backoff(attempt, p.base, p.max);
      if out.error.FloodWait? {
        d := FloodWaitSeconds(out.error) * SECOND;
      }
      var (w2, fired) := env.wait(w, d);
      w := w2;
      if !fired {
        err := Err(CtxDone);
        os, ws := os + [out], ws + [d];
        return;
      }
      AfterAfter(os, ws, out, d, DoFrom(env, p, w, attempt + 1));
      os, ws := os + [out], ws + [d];
      attempt := attempt + 1;
    }
  }

  /** What Do promises, read off the trace it leaves from a given attempt on.  It calls at most as
      often as it still may; every call but the last failed; between two calls there is one wait,
      for the delay the server asked for or else the backoff of that attempt; and it ends with nil,
      with the last error once the attempts are used up, or with the context's error. */
  predicate Kept<S>(p: Policy, attempt: nat, r: Report<S>)
    requires attempt < Attempts(p)
  {
    var n := |r.outcomes|;
    && n <= Attempts(p) - attempt
    && n - 1 <= |r.waits| <= n
    && (forall i | 0 <= i < n - 1 :: r.outcomes[i].Err?)
    && (forall i | 0 <= i < |r.waits| ::
          r.outcomes[i].Err? && r.waits[i] == WaitAfter(p, attempt + i, r.outcomes[i].error))
    && (r.result.Ok? <==> n > 0 && r.outcomes[n - 1].Ok?)
    && (r.result.Ok? ==> |r.waits| == n - 1)
    && (r.result.Err? ==>
          || r.result.error.CtxDone?
          || (n == Attempts(p) - attempt && r.result == r.outcomes[n - 1] && |r.waits| == n - 1))
    && (|r.waits| == n ==> r.result == Err(CtxDone) && n < Attempts(p) - attempt)
  }

  lemma {:induction false} DoKeeps<S>(env: Env<S>, p: Policy, w: S, attempt: nat)
    requires attempt < Attempts(p)
    ensures Kept(p, attempt, DoFrom(env, p, w, attempt))
    decreases Attempts(p) - attempt
  {
    if !env.ctxDone(w) {
      var (w1, out) := env.fn(w);
      if out.Err? && attempt < Attempts(p) - 1 {
        var d := WaitAfter(p, attempt, out.error);
        var (w2, fired) := env.wait(w1, d);
        if fired {
          DoKeeps(env, p, w2, attempt + 1);
          var rest := DoFrom(env, p, w2, attempt + 1);
          var r := DoFrom(env, p, w, attempt);
          assert r.outcomes == [out] + rest.outcomes && r.waits == [d] + rest.waits;
          forall i | 0 <= i < |r.waits|
            ensures r.outcomes[i].Err? && r.waits[i] == WaitAfter(p, attempt + i, r.outcomes[i].error)
          {
            if i > 0 {
              assert r.outcomes[i] == rest.outcomes[i - 1] && r.waits[i] == rest.waits[i - 1];
            }
          }
        }
      }
    }
  }

  /** A callback is only ever called in worlds whose context is not done: what it would do in any
      other world makes no difference, even when the timer beats the cancellation to the select. */
  lemma {:induction false} NeverCalledWhenDone<S(!new)>(
    env: Env<S>, other: S -> (S, Outcome), p: Policy, w: S, attempt: nat)
    requires attempt < Attempts(p)
    requires forall v :: !env.ctxDone(v) ==> other(v) == env.fn(v)
    ensures DoFrom(env.(fn := other), p, w, attempt) == DoFrom(env, p, w, attempt)
    decreases Attempts(p) - attempt
  {
    if !env.ctxDone(w) {
      var (w1, out) := env.fn(w);
      if out.Err? && attempt < Attempts(p) - 1 {
        var (w2, fired) := env.wait(w1, WaitAfter(p, attempt, out.error));
        if fired {
          NeverCalledWhenDone(env, other, p, w2, attempt + 1);
        }
      }
    }
  }

  /** How to reason about a whole loop: `before` holds whenever it is about to look at its context,
      with the number of the attempt, and `after` holds when it ends, with its result. */
  lemma {:induction false} DoInduction<S(!new)>(
    env: Env<S>, p: Policy, w: S, attempt: nat, before: (S, nat) -> bool, after: (S, Outcome) -> bool)
    requires attempt < Attempts(p) && before(w, attempt)
    requires forall v, a: nat :: before(v, a) && env.ctxDone(v) ==> after(v, Err(CtxDone))
    requires forall v, a: nat ::
               before(v, a) && !env.ctxDone(v) && (env.fn(v).1.Ok? || a == Attempts(p) - 1) ==>
                 after(env.fn(v).0, env.fn(v).1)
    requires forall v, a: nat, d: int ::
               && before(v, a) && !env.ctxDone(v) && env.fn(v).1.Err? && a < Attempts(p) - 1
               && env.wait(env.fn(v).0, d).1 ==>
                 before(env.wait(env.fn(v).0, d).0, a + 1)
    requires forall v, a: nat, d: int ::
               && before(v, a) && !env.ctxDone(v) && env.fn(v).1.Err? && a < Attempts(p) - 1
               && !env.wait(env.fn(v).0, d).1 ==>
                 after(env.wait(env.fn(v).0, d).0, Err(CtxDone))
    ensures after(DoFrom(env, p, w, attempt).world, DoFrom(env, p, w, attempt).result)
    decreases Attempts(p) - attempt
  {
    if !env.ctxDone(w) {
      var (w1, out) := env.fn(w);
      if out.Err? && attempt < Attempts(p) - 1 {
        var d: int := WaitAfter(p, attempt, out.error);
        var (w2, fired) := env.wait(w1, d);
        assert fired ==> before(env.wait(env.fn(w).0, d).0, attempt + 1);
        assert !fired ==> after(env.wait(env.fn(w).0, d).0, Err(CtxDone));
        if fired {
          DoInduction(env, p, w2, attempt + 1, before, after);
        }
      }
    }
  }

  // ----- attempts decided by a schedule

  /** What decides attempt i: whether the context is done before it, what it comes to, and whether
      the timer of the wait after it fires. */
  datatype Schedule = Schedule(done: nat -> bool, outcome: nat -> Outcome, fired: nat -> bool)

  /** k attempts have been made, of at most n, and there will be one more look at the context. */
  predicate StillTrying(s: Schedule, k: nat, n: nat) {
    k < n && forall i | 0 <= i < k :: !s.done(i) && s.outcome(i).Err? && s.fired(i)
  }

  /** k attempts were made, each but the last failed and was waited for, and no more were made because
      the last one succeeded, or was the n-th, or the wait or the context was cut short. */
  predicate TriedEnough(s: Schedule, k: nat, n: nat, result: Outcome) {
    && k <= n
    && (forall i | 0 <= i < k :: !s.done(i))
    && (forall i | 0 <= i < k - 1 :: s.outcome(i).Err? && s.fired(i))
    && (|| (k > 0 && result == s.outcome(k - 1) && (result.Ok? || k == n))
        || (&& result == Err(CtxDone) && k < n
            && if k == 0 then s.done(0) else s.outcome(k - 1).Err? && (!s.fired(k - 1) || s.done(k))))
  }

  lemma TryOnce(s: Schedule, k: nat, n: nat)
    requires StillTrying(s, k, n)
    ensures s.done(k) ==> TriedEnough(s, k, n, Err(CtxDone))
    ensures !s.done(k) && (s.outcome(k).Ok? || k == n - 1) ==> TriedEnough(s, k + 1, n, s.outcome(k))
    ensures !s.done(k) && s.outcome(k).Err? && k < n - 1 ==>
              if s.fired(k) then StillTrying(s, k + 1, n) else TriedEnough(s, k + 1, n, Err(CtxDone))
  {
  }

  /** World v, in which a attempts have been made, does what the schedule says of the next one. */
  ghost predicate Follows<S(!new)>(env: Env<S>, s: Schedule, v: S, a: nat, trying: (S, nat) -> bool, count: S -> nat) {
    && count(v) == a && count(env.fn(v).0) == a + 1
    && env.ctxDone(v) == s.done(a) && env.fn(v).1 == s.outcome(a)
    && forall d: int ::
         && env.wait(env.fn(v).0, d).1 == s.fired(a) && count(env.wait(env.fn(v).0, d).0) == a + 1
         && (s.outcome(a).Err? ==> trying(env.wait(env.fn(v).0, d).0, a + 1))
  }

  /** A loop whose worlds follow a schedule makes the attempts the schedule calls for. */
  lemma ScheduleFollowed<S(!new)>(
    env: Env<S>, p: Policy, w: S, s: Schedule, trying: (S, nat) -> bool, count: S -> nat)
    requires trying(w, 0) && forall v, a: nat :: trying(v, a) ==> Follows(env, s, v, a, trying, count)
    ensures var r := DoFrom(env, p, w, 0); TriedEnough(s, count(r.world), Attempts(p), r.result)
  {
    var n := Attempts(p);
    forall v, a: nat | trying(v, a) && StillTrying(s, a, n)
      ensures env.ctxDone(v) ==> TriedEnough(s, count(v), n, Err(CtxDone))
      ensures !env.ctxDone(v) && (env.fn(v).1.Ok? || a == n - 1) ==>
                TriedEnough(s, count(env.fn(v).0), n, env.fn(v).1)
      ensures forall d: int | !env.ctxDone(v) && env.fn(v).1.Err? && a < n - 1 ::
                if env.wait(env.fn(v).0, d).1
                then trying(env.wait(env.fn(v).0, d).0, a + 1) && StillTrying(s, a + 1, n)
                else TriedEnough(s, count(env.wait(env.fn(v).0, d).0), n, Err(CtxDone))
    {
      assert Follows(env, s, v, a, trying, count);
      TryOnce(s, a, n);
    }
    DoInduction(env, p, w, 0, (v: S, a: nat) => trying(v, a) && StillTrying(s, a, n),
                (v: S, out: Outcome) => TriedEnough(s, count(v), n, out));
  }

  // ----- what really happened

  /** A report tells the truth: vs are the worlds the callback was called in, one after the other,
      none with its context done; each outcome is what it returned there, and each wait lay between
      two calls and ran its time.  The loop ended with the last call's own world and outcome, or
      with the context's error because the context was done or a wait was cut short. */
  ghost predicate Traced<S>(env: Env<S>, w: S, vs: seq<S>, r: Report<S>) {
    var n := |vs|;
    && |r.outcomes| == n && |r.waits| <= n <= |r.waits| + 1
    && (n > 0 ==> vs[0] == w)
    && (forall i | 0 <= i < n :: !env.ctxDone(vs[i]) && env.fn(vs[i]).1 == r.outcomes[i])
    && (forall i | 0 <= i < n - 1 :: env.wait(env.fn(vs[i]).0, r.waits[i]) == (vs[i + 1], true))
    && (if |r.waits| < n then r.world == env.fn(vs[n - 1]).0 && r.result == r.outcomes[n - 1]
        else
          && r.result == Err(CtxDone)
          && if n == 0 then r.world == w && env.ctxDone(w)
             else
               var (v, fired) := env.wait(env.fn(vs[n - 1]).0, r.waits[n - 1]);
               r.world == v && (fired ==> env.ctxDone(v)))
  }

  /** One more call in front of a trace. */
  lemma TracedBehind<S>(env: Env<S>, w: S, d: int, vs: seq<S>, rest: Report<S>)
    requires !env.ctxDone(w) && env.wait(env.fn(w).0, d).1
    requires Traced(env, env.wait(env.fn(w).0, d).0, vs, rest)
    ensures Traced(env, w, [w] + vs, After([env.fn(w).1], [d], rest))
  {
    var r, all := After([env.fn(w).1], [d], rest), [w] + vs;
    forall i | 0 <= i < |all|
      ensures !env.ctxDone(all[i]) && env.fn(all[i]).1 == r.outcomes[i]
    {
      if i > 0 {
        assert all[i] == vs[i - 1] && r.outcomes[i] == rest.outcomes[i - 1];
      }
    }
    forall i | 0 <= i < |all| - 1
      ensures env.wait(env.fn(all[i]).0, r.waits[i]) == (all[i + 1], true)
    {
      assert all[i + 1] == vs[i];
      if i > 0 {
        assert all[i] == vs[i - 1] && r.waits[i] == rest.waits[i - 1];
      }
    }
    if |vs| > 0 {
      assert all[|all| - 1] == vs[|vs| - 1] && r.outcomes[|all| - 1] == rest.outcomes[|vs| - 1];
      if |r.waits| == |all| {
        assert r.waits[|all| - 1] == rest.waits[|vs| - 1];
      }
    }
  }

  lemma {:induction false} DoTraced<S>(env: Env<S>, p: Policy, w: S, attempt: nat) returns (vs: seq<S>)
    requires attempt < Attempts(p)
    ensures Traced(env, w, vs, DoFrom(env, p, w, attempt))
    decreases Attempts(p) - attempt
  {
    vs := [];
    if !env.ctxDone(w) {
      vs := [w];
      var (w1, out) := env.fn(w);
      if out.Err? && attempt < Attempts(p) - 1 {
        var d: int := WaitAfter(p, attempt, out.error);
        var (w2, fired) := env.wait(w1, d);
        if fired {
          var rest := DoTraced(env, p, w2, attempt + 1);
          TracedBehind(env, w, d, rest, DoFrom(env, p, w2, attempt + 1));
          vs := [w] + rest;
        }
      }
    }
  }

  /** The wait the server asked for, cut to whole seconds. */
  predicate AskedFor(asked: int, wait: int) {
    && wait % SECOND == 0
    && (if asked >= 0 then wait <= asked < wait + SECOND else wait - SECOND < asked <= wait)
  }

  /** How long the waits of a trace are: what the server asked for after a flood error, and after any
      other the base delay, doubled for every attempt before, up to the cap. */
  predicate WaitsAsDocumented<S>(p: Policy, attempt: nat, r: Report<S>) {
    && |r.waits| <= |r.outcomes|
    && forall i | 0 <= i < |r.waits| ::
         && r.outcomes[i].Err?
         && match r.outcomes[i].error {
              case FloodWait(asked) => AskedFor(asked, r.waits[i])
              case _ => r.waits[i] == Min(p.base * Pow2(attempt + i), p.max)
            }
  }

  lemma DocumentedWait(p: Policy, attempt: nat, e: Error)
    requires Safe(p.base, p.max)
    ensures match e {
              case FloodWait(asked) => AskedFor(asked, WaitAfter(p, attempt, e))
              case _ => WaitAfter(p, attempt, e) == Min(p.base * Pow2(attempt), p.max)
            }
  {
    SecondsAreCut(e);
    DoublingIsExact(p.base, attempt, p.max);
    DoubledIsProduct(p.base, attempt);
  }

  lemma DoWaits<S>(env: Env<S>, p: Policy, w: S, attempt: nat)
    requires attempt < Attempts(p) && Safe(p.base, p.max)
    ensures WaitsAsDocumented(p, attempt, DoFrom(env, p, w, attempt))
  {
    var r := DoFrom(env, p, w, attempt);
    DoKeeps(env, p, w, attempt);
    forall i | 0 <= i < |r.waits|
      ensures match r.outcomes[i].error {
                case FloodWait(asked) => AskedFor(asked, r.waits[i])
                case _ => r.waits[i] == Min(p.base * Pow2(attempt + i), p.max)
              }
    {
      DocumentedWait(p, attempt + i, r.outcomes[i].error);
    }
  }

  /** The world before the k-th further call, if all before it fail and every wait runs its time. */
  function Nth<S>(env: Env<S>, p: Policy, w: S, attempt: nat, k: nat): S
    decreases k
  {
    if k == 0 then w
    else
      var (w1, out) := env.fn(w);
      var d := if out.Ok? then 0 else WaitAfter(p, attempt, out.error);
      Nth(env, p, env.wait(w1, d).0, attempt + 1, k - 1)
  }

  /** The call made in world v fails, and the wait after it runs its time. */
  predicate Retries<S>(env: Env<S>, p: Policy, v: S, attempt: nat) {
    var (w1, out) := env.fn(v);
    out.Err? && env.wait(w1, WaitAfter(p, attempt, out.error)).1
  }

  /** In a run its context does not disturb, Do calls until the first success or until the attempts are used
      up, whichever comes first, and returns what the last call returned. */
  lemma {:induction false} ExactCalls<S>(env: Env<S>, p: Policy, w: S, attempt: nat, c: nat)
    requires attempt + c < Attempts(p)
    requires forall k | 0 <= k <= c :: !env.ctxDone(Nth(env, p, w, attempt, k))
    requires forall k | 0 <= k < c :: Retries(env, p, Nth(env, p, w, attempt, k), attempt + k)
    requires env.fn(Nth(env, p, w, attempt, c)).1.Ok? || attempt + c == Attempts(p) - 1
    ensures var r := DoFrom(env, p, w, attempt);
            && |r.outcomes| == c + 1 && |r.waits| == c
            && r.result == env.fn(Nth(env, p, w, attempt, c)).1
            && r.world == env.fn(Nth(env, p, w, attempt, c)).0
    decreases c
  {
    assert Nth(env, p, w, attempt, 0) == w;
    if c > 0 {
      assert Retries(env, p, Nth(env, p, w, attempt, 0), attempt + 0);
      var (w1, out) := env.fn(w);
      var w2 := env.wait(w1, WaitAfter(p, attempt, out.error)).0;
      forall k: nat {:trigger Nth(env, p, w2, attempt + 1, k)} | 0 <= k <= c - 1
        ensures !env.ctxDone(Nth(env, p, w2, attempt + 1, k))
        ensures k < c - 1 ==> Retries(env, p, Nth(env, p, w2, attempt + 1, k), attempt + 1 + k)
      {
        assert Nth(env, p, w2, attempt + 1, k) == Nth(env, p, w, attempt, k + 1);
        assert k < c - 1 ==> Retries(env, p, Nth(env, p, w, attempt, k + 1), attempt + (k + 1));
      }
      ExactCalls(env, p, w2, attempt + 1, c - 1);
    }
  }

  function Sum(xs: seq<int>): int {
    if |xs| == 0 then 0 else Sum(xs[..|xs| - 1]) + xs[|xs| - 1]
  }

  lemma {:induction false} GeometricSum(xs: seq<int>, base: int)
    requires forall i | 0 <= i < |xs| :: xs[i] <= Doubled(base, i)
    ensures Sum(xs) <= Doubled(base, |xs|) - base
    decreases |xs|
  {
    if |xs| > 0 {
      GeometricSum(xs[..|xs| - 1], base);
    }
  }

  lemma {:induction false} CappedSum(xs: seq<int>, cap: int)
    requires forall i | 0 <= i < |xs| :: xs[i] <= cap
    ensures Sum(xs) <= Times(|xs|, cap)
    decreases |xs|
  {
    if |xs| > 0 {
      CappedSum(xs[..|xs| - 1], cap);
    }
  }

  /** The waits that the server did not ask for; one that it did counts as nothing. */
  function NonFlood(os: seq<Outcome>, ws: seq<int>): (r: seq<int>)
    ensures |r| == |ws|
  {
    seq(|ws|, i requires 0 <= i < |ws| => if i < |os| && os[i].Flood() then 0 else ws[i])
  }

  /** At most one wait per retry, each within the doubling delay and the cap. */
  predicate Fits(ws: seq<int>, p: Policy) {
    |ws| <= Attempts(p) - 1 && forall i | 0 <= i < |ws| :: ws[i] <= Doubled(p.base, i) && ws[i] <= p.max
  }

  lemma WaitsFit<S>(p: Policy, r: Report<S>)
    requires Kept(p, 0, r) && Safe(p.base, p.max) && p.max >= 0
    ensures Fits(NonFlood(r.outcomes, r.waits), p)
  {
    var ws := NonFlood(r.outcomes, r.waits);
    forall i | 0 <= i < |ws|
      ensures ws[i] <= Doubled(p.base, i) && ws[i] <= p.max
    {
      if r.outcomes[i].Flood() {
        DoubledGrows(p.base, 0, i);
      } else {
        DoublingIsExact(p.base, i, p.max);
      }
    }
  }

  lemma SumFits(ws: seq<int>, n: nat, base: int, cap: int)
    requires |ws| <= n && base >= 0 && cap >= 0
    requires forall i | 0 <= i < |ws| :: ws[i] <= Doubled(base, i) && ws[i] <= cap
    ensures Sum(ws) <= Doubled(base, n) - base && Sum(ws) <= Times(n, cap)
  {
    GeometricSum(ws, base);
    CappedSum(ws, cap);
    DoubledGrows(base, |ws|, n);
    TimesGrows(|ws|, n, cap);
  }

  lemma AsProducts(s: int, n: nat, base: int, cap: int)
    requires s <= Doubled(base, n) - base && s <= Times(n, cap)
    ensures s <= Min(base * Pow2(n) - base, n * cap)
  {
    DoubledIsProduct(base, n);
    TimesIsProduct(n, cap);
  }

  lemma WaitsBoundedOf<S>(p: Policy, r: Report<S>)
    requires Kept(p, 0, r) && Safe(p.base, p.max) && p.max >= 0
    ensures var total := Sum(NonFlood(r.outcomes, r.waits));
            total <= Doubled(p.base, Attempts(p) - 1) - p.base && total <= Times(Attempts(p) - 1, p.max)
  {
    WaitsFit(p, r);
    SumFits(NonFlood(r.outcomes, r.waits), Attempts(p) - 1, p.base, p.max);
  }

  /** Beside the waits a server asks for, Do never waits longer in all than the doubling delays add
      up to, nor than the cap once per retry. */
  lemma WaitsBounded<S>(env: Env<S>, p: Policy, w: S)
    requires Safe(p.base, p.max) && p.max >= 0
    ensures var n := Attempts(p);
            var r := DoFrom(env, p, w, 0);
            Sum(NonFlood(r.outcomes, r.waits)) <= Min(p.base * Pow2(n - 1) - p.base, (n - 1) * p.max)
  {
    var r := DoFrom(env, p, w, 0);
    DoKeeps(env, p, w, 0);
    WaitsBoundedOf(p, r);
    AsProducts(Sum(NonFlood(r.outcomes, r.waits)), Attempts(p) - 1, p.base, p.max);
  }

  // ----- the flood-wait middleware

  /** With a negative maxRetries the loop does not run and the call reports success unmade. */
  function HandleFrom<S>(env: Env<S>, maxRetries: int, w: S, attempt: nat): Report<S>
    decreases maxRetries - attempt
  {
    if attempt > maxRetries then Report(w, Ok, [], [])
    else if env.ctxDone(w) then Report(w, Err(CtxDone), [], [])
    else
      var (w1, out) := env.fn(w);
      if !out.Flood() || attempt == maxRetries then Report(w1, out, [out], [])
      else
        var d := WaitLonger(out.error);
        var (w2, fired) := env.wait(w1, d);
        if !fired then Report(w2, Err(CtxDone), [out], [d])
        else After([out], [d], HandleFrom(env, maxRetries, w2, attempt + 1))
  }

  /** A second more than the server asked for. */
  function WaitLonger(e: Error): Duration {
    Wrap(FloodWaitSeconds(e) * SECOND + SECOND)
  }

  /** The wait is longer than the server asked for, by at most a second. */
  predicate Margin(asked: int, wait: int) {
    asked < wait <= asked + SECOND
  }

  /** The sum fits into a duration.  A negative request, whose seconds are cut upwards, has to be
      whole seconds instead. */
  predicate MarginFits(asked: Duration) {
    if asked >= 0 then asked / SECOND * SECOND + SECOND < TWO_63 else asked % SECOND == 0
  }

  lemma WaitLongerIff(asked: Duration)
    ensures Margin(asked, WaitLonger(FloodWait(asked))) <==> MarginFits(asked)
  {
    var s := FloodWaitSeconds(FloodWait(asked)) * SECOND;
    if s + SECOND < TWO_63 {
      WrapFits(s + SECOND);
    }
  }

  /** The longest duration of all makes the middleware not wait at all. */
  lemma LongestWaitWraps()
    ensures WaitLonger(FloodWait(TWO_63 - 1)) < 0
  {
  }

  lemma HandleStep<S>(env: Env<S>, maxRetries: int, w: S, attempt: nat)
    requires attempt <= maxRetries && !env.ctxDone(w)
    ensures var r := HandleFrom(env, maxRetries, w, attempt);
            var (w1, out) := env.fn(w);
            if !out.Flood() || attempt == maxRetries then r == Report(w1, out, [out], [])
            else
              var (w2, fired) := env.wait(w1, WaitLonger(out.error));
              r == if !fired then Report(w2, Err(CtxDone), [out], [WaitLonger(out.error)])
                   else After([out], [WaitLonger(out.error)], HandleFrom(env, maxRetries, w2, attempt + 1))
  {
  }

  method Handle<S>(env: Env<S>, maxRetries: int, start: S)
    returns (w: S, err: Outcome, ghost os: seq<Outcome>, ghost ws: seq<int>)
    ensures w == HandleFrom(env, maxRetries, start, 0).world && err == HandleFrom(env, maxRetries, start, 0).result
    ensures os == HandleFrom(env, maxRetries, start, 0).outcomes && ws == HandleFrom(env, maxRetries, start, 0).waits
  {
    w, err, os, ws := start, Ok, [], [];
    var attempt := 0;
    while attempt <= maxRetries
      invariant 0 <= attempt && (attempt > maxRetries ==> err == Ok)
      invariant HandleFrom(env, maxRetries, start, 0) == After(os, ws, HandleFrom(env, maxRetries, w, attempt))
      decreases maxRetries - attempt
    {
      if env.ctxDone(w) {
        err := Err(CtxDone);
        return;
      }
      var (w1, out) := env.fn(w);
      HandleStep(env, maxRetries, w, attempt);
      w, err := w1, out;
      if out.Ok? || !out.error.FloodWait? {
        os := os + [out];
        return;
      }
      if attempt == maxRetries {
        os := os + [out];
        return;
      }
      var d := WaitLonger(out.error);
      var (w2, fired) := env.wait(w, d);
      w := w2;
      if !fired {
        err := Err(CtxDone);
        os, ws := os + [out], ws + [d];
        return;
      }
      AfterAfter(os, ws, out, d, HandleFrom(env, maxRetries, w, attempt + 1));
      os, ws := os + [out], ws + [d];
      attempt := attempt + 1;
    }
  }

  /** The middleware re-sends a call only after a flood error, at most maxRetries times, and each
      time waits a second longer than asked; any other error is passed on from the first call that
      meets it. */
  lemma {:induction false} HandleKeeps<S>(env: Env<S>, maxRetries: int, w: S, attempt: nat)
    requires attempt <= maxRetries
    ensures var r := HandleFrom(env, maxRetries, w, attempt);
            var n := |r.outcomes|;
            && n <= maxRetries - attempt + 1
            && n - 1 <= |r.waits| <= n
            && (forall i | 0 <= i < |r.waits| ::
                  r.outcomes[i].Flood() && r.waits[i] == WaitLonger(r.outcomes[i].error))
            && (r.result == Err(CtxDone) || (|r.waits| == n - 1 && r.result == r.outcomes[n - 1]))
            && (r.result.Flood() ==> n == maxRetries - attempt + 1)
    decreases maxRetries - attempt
  {
    if !env.ctxDone(w) {
      var (w1, out) := env.fn(w);
      if out.Flood() && attempt < maxRetries {
        var d := WaitLonger(out.error);
        var (w2, fired) := env.wait(w1, d);
        if fired {
          HandleKeeps(env, maxRetries, w2, attempt + 1);
          var rest := HandleFrom(env, maxRetries, w2, attempt + 1);
          var r := HandleFrom(env, maxRetries, w, attempt);
          assert r.outcomes == [out] + rest.outcomes && r.waits == [d] + rest.waits;
          forall i | 0 <= i < |r.waits|
            ensures r.outcomes[i].Flood() && r.waits[i] == WaitLonger(r.outcomes[i].error)
          {
            if i > 0 {
              assert r.outcomes[i] == rest.outcomes[i - 1] && r.waits[i] == rest.waits[i - 1];
            }
          }
        }
      }
    }
  }

  /** Every wait of the middleware answers a flood error, and has the margin exactly if that fits. */
  lemma ResendsWaitLonger<S>(env: Env<S>, maxRetries: int, w: S)
    ensures var r := HandleFrom(env, maxRetries, w, 0);
            forall i | 0 <= i < |r.waits| ::
              && i < |r.outcomes| && r.outcomes[i].Flood()
              && (Margin(r.outcomes[i].error.asked, r.waits[i]) <==> MarginFits(r.outcomes[i].error.asked))
  {
    if maxRetries >= 0 {
      HandleKeeps(env, maxRetries, w, 0);
      var r := HandleFrom(env, maxRetries, w, 0);
      forall i | 0 <= i < |r.waits|
        ensures Margin(r.outcomes[i].error.asked, r.waits[i]) <==> MarginFits(r.outcomes[i].error.asked)
      {
        WaitLongerIff(r.outcomes[i].error.asked);
      }
    }
  }

  /** The same truth about the middleware, for every number of retries it can be made with. */
  lemma {:induction false} HandleTraced<S>(env: Env<S>, maxRetries: int, w: S, attempt: nat) returns (vs: seq<S>)
    requires attempt <= maxRetries
    ensures Traced(env, w, vs, HandleFrom(env, maxRetries, w, attempt))
    decreases maxRetries - attempt
  {
    vs := [];
    if !env.ctxDone(w) {
      vs := [w];
      var (w1, out) := env.fn(w);
      if out.Flood() && attempt < maxRetries {
        var d: int := WaitLonger(out.error);
        var (w2, fired) := env.wait(w1, d);
        if fired {
          var rest := HandleTraced(env, maxRetries, w2, attempt + 1);
          TracedBehind(env, w, d, rest, HandleFrom(env, maxRetries, w2, attempt + 1));
          vs := [w] + rest;
        }
      }
    }
  }

  /** How to reason about the middleware's loop, as about the other one. */
  lemma {:induction false} HandleInduction<S(!new)>(
    env: Env<S>, maxRetries: int, w: S, attempt: nat, before: (S, nat) -> bool, after: (S, Outcome) -> bool)
    requires attempt <= maxRetries && before(w, attempt)
    requires forall v, a: nat :: before(v, a) && env.ctxDone(v) ==> after(v, Err(CtxDone))
    requires forall v, a: nat ::
               before(v, a) && !env.ctxDone(v) && (!env.fn(v).1.Flood() || a == maxRetries) ==>
                 after(env.fn(v).0, env.fn(v).1)
    requires forall v, a: nat, d: int ::
               && before(v, a) && !env.ctxDone(v) && env.fn(v).1.Flood() && a < maxRetries
               && env.wait(env.fn(v).0, d).1 ==>
                 before(env.wait(env.fn(v).0, d).0, a + 1)
    requires forall v, a: nat, d: int ::
               && before(v, a) && !env.ctxDone(v) && env.fn(v).1.Flood() && a < maxRetries
               && !env.wait(env.fn(v).0, d).1 ==>
                 after(env.wait(env.fn(v).0, d).0, Err(CtxDone))
    ensures after(HandleFrom(env, maxRetries, w, attempt).world, HandleFrom(env, maxRetries, w, attempt).result)
    decreases maxRetries - attempt
  {
    if !env.ctxDone(w) {
      var (w1, out) := env.fn(w);
      if out.Flood() && attempt < maxRetries {
        var d: int := WaitLonger(out.error);
        var (w2, fired) := env.wait(w1, d);
        assert fired ==> before(env.wait(env.fn(w).0, d).0, attempt + 1);
        assert !fired ==> after(env.wait(env.fn(w).0, d).0, Err(CtxDone));
        if fired {
          HandleInduction(env, maxRetries, w2, attempt + 1, before, after);
        }
      }
    }
  }

  /** A context that is done at the start is all there is: nothing is sent, and its error returned. */
  lemma NothingSentWhenDone<S>(env: Env<S>, maxRetries: nat, w: S)
    requires env.ctxDone(w)
    ensures var r := HandleFrom(env, maxRetries, w, 0);
            r.result == Err(CtxDone) && r.world == w && r.outcomes == [] && r.waits == []
  {
  }

  /** A call that reports success, or any error but the context's, was sent in a world whose context
      was not done, and that is what came back. */
  lemma ResultWasSent<S>(env: Env<S>, maxRetries: nat, w: S) returns (v: S)
    requires HandleFrom(env, maxRetries, w, 0).result != Err(CtxDone)
    ensures var r := HandleFrom(env, maxRetries, w, 0); !env.ctxDone(v) && env.fn(v) == (r.world, r.result)
  {
    var vs := HandleTraced(env, maxRetries, w, 0);
    v := vs[|vs| - 1];
  }

  /** The middleware sends nothing in a world whose context is done: what would be sent there makes
      no difference. */
  lemma {:induction false} NeverSentWhenDone<S(!new)>(
    env: Env<S>, other: S -> (S, Outcome), maxRetries: int, w: S, attempt: nat)
    requires forall v :: !env.ctxDone(v) ==> other(v) == env.fn(v)
    ensures HandleFrom(env.(fn := other), maxRetries, w, attempt) == HandleFrom(env, maxRetries, w, attempt)
    decreases maxRetries - attempt
  {
    if attempt <= maxRetries && !env.ctxDone(w) {
      var (w1, out) := env.fn(w);
      if out.Flood() && attempt < maxRetries {
        var (w2, fired) := env.wait(w1, WaitLonger(out.error));
        if fired {
          NeverSentWhenDone(env, other, maxRetries, w2, attempt + 1);
        }
      }
    }
  }

  /** The middleware reports success without a call exactly for a negative number of retries. */
  lemma UnsentIffNegative<S>(env: Env<S>, maxRetries: int, w: S)
    ensures var r := HandleFrom(env, maxRetries, w, 0);
            r.result.Ok? && r.outcomes == [] <==> maxRetries < 0
  {
    if maxRetries >= 0 {
      HandleKeeps(env, maxRetries, w, 0);
    }
  }

  // ----- one layer inside the other

  /** A world and the number of invocations that went out on the wire to get there. */
  datatype Wire<S> = Wire(world: S, sent: nat)

  /** An operation makes its RPCs one after the other, each through the middleware, and stops at
      the first that fails. */
  function Rpcs<S>(env: Env<S>, maxRetries: int, w: Wire<S>, k: nat): (Wire<S>, Outcome)
    decreases k
  {
    if k == 0 then (w, Ok)
    else
      var one := HandleFrom(env, maxRetries, w.world, 0);
      var w1 := Wire(one.world, w.sent + |one.outcomes|);
      if one.result.Err? then (w1, one.result) else Rpcs(env, maxRetries, w1, k - 1)
  }

  lemma {:induction false} RpcsBounded<S>(env: Env<S>, maxRetries: nat, w: Wire<S>, k: nat)
    ensures Rpcs(env, maxRetries, w, k).0.sent <= w.sent + Times(k, maxRetries + 1)
    decreases k
  {
    if k > 0 {
      HandleKeeps(env, maxRetries, w.world, 0);
      var one := HandleFrom(env, maxRetries, w.world, 0);
      RpcsBounded(env, maxRetries, Wire(one.world, w.sent + |one.outcomes|), k - 1);
      TimesGrows(0, k - 1, maxRetries + 1);
    }
  }

  /** An operation that succeeds has sent each of its RPCs, and one that fails has at least not sent
      less than before. */
  lemma {:induction false} RpcsAllSent<S>(env: Env<S>, maxRetries: nat, w: Wire<S>, k: nat)
    ensures var (v, out) := Rpcs(env, maxRetries, w, k);
            v.sent >= w.sent && (out.Ok? ==> v.sent >= w.sent + k)
    decreases k
  {
    if k > 0 {
      HandleKeeps(env, maxRetries, w.world, 0);
      var one := HandleFrom(env, maxRetries, w.world, 0);
      RpcsAllSent(env, maxRetries, Wire(one.world, w.sent + |one.outcomes|), k - 1);
    }
  }

  function WaitOnWire<S>(env: Env<S>, w: Wire<S>, d: int): (Wire<S>, bool) {
    var (v, fired) := env.wait(w.world, d);
    (w.(world := v), fired)
  }

  /** The retry loop around such an operation; plan says how many RPCs an attempt makes. */
  function Nested<S>(env: Env<S>, maxRetries: int, plan: S -> nat): Env<Wire<S>> {
    Env((w: Wire<S>) => env.ctxDone(w.world),
        (w: Wire<S>) => Rpcs(env, maxRetries, w, plan(w.world)),
        (w: Wire<S>, d: int) => WaitOnWire(env, w, d))
  }

  lemma {:induction false} NestedFrom<S(!new)>(
    env: Env<S>, maxRetries: nat, plan: S -> nat, k: nat, p: Policy, w: Wire<S>, attempt: nat)
    requires attempt < Attempts(p)
    requires forall v :: plan(v) <= k
    ensures DoFrom(Nested(env, maxRetries, plan), p, w, attempt).world.sent
            <= w.sent + Times(Attempts(p) - attempt, Times(k, maxRetries + 1))
    decreases Attempts(p) - attempt
  {
    var outer := Nested(env, maxRetries, plan);
    var each := Times(k, maxRetries + 1);
    TimesGrows(plan(w.world), k, maxRetries + 1);
    TimesGrows(0, Attempts(p) - attempt - 1, each);
    if !outer.ctxDone(w) {
      RpcsBounded(env, maxRetries, w, plan(w.world));
      var (w1, out) := outer.fn(w);
      assert w1.sent <= w.sent + each;
      if out.Err? && attempt < Attempts(p) - 1 {
        var (w2, fired) := outer.wait(w1, WaitAfter(p, attempt, out.error));
        assert w2.sent == w1.sent;
        if fired {
          NestedFrom(env, maxRetries, plan, k, p, w2, attempt + 1);
        }
      }
    }
  }

  /** The two layers multiply: an operation of at most k RPCs per attempt goes out on the wire at
      most MaxAttempts * (k * (maxRetries + 1)) times. */
  lemma NestedBounded<S(!new)>(env: Env<S>, maxRetries: nat, plan: S -> nat, k: nat, p: Policy, w: S)
    requires forall v :: plan(v) <= k
    ensures DoFrom(Nested(env, maxRetries, plan), p, Wire(w, 0), 0).world.sent <= Attempts(p) * (k * (maxRetries + 1))
  {
    NestedFrom(env, maxRetries, plan, k, p, Wire(w, 0), 0);
    TimesIsProduct(k, maxRetries + 1);
    TimesIsProduct(Attempts(p), k * (maxRetries + 1));
  }
}
