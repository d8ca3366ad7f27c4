/** uploadWithRetry of internal/transfer/transfer.go: the upload callback driven by the retry loop
    over a reader that it rewinds. */
module Upload {
  import opened Options
  import opened Durations
  import opened Retry
  import opened Progress

  const TRANSFER_POLICY := Policy(3, SECOND, 30 * SECOND)
  const REWIND_FAILED := 1

  /** One attempt as the environment decides it: whether the context is done at the check before
      it, whether the rewind fails, what the uploader reads and answers, and whether the timer of
      the wait after it fires. */
  datatype Try = Try(ctxDone: bool, seekFails: bool, grants: seq<Grant>, outcome: Outcome, fired: bool)

  /** One call of the uploader: in which attempt, where the payload stood and the counters it found, how far it read,
      what was reported meanwhile, and what it returned. */
  datatype Call = Call(
    attempt: nat, start: nat, done: int, finalSent: bool, end: nat, told: seq<Notice>, outcome: Outcome)

  /** k counts attempts; result is the call whose file was kept. */
  datatype World = World(k: nat, pr: Reader, calls: seq<Call>, result: Option<nat>)

  function Attempt(sched: nat -> Try, data: Bytes, w: World): (World, Outcome) {
    var t := sched(w.k);
    var (pr, ok) := Reset(w.pr, t.seekFails);
    if !ok then (w.(k := w.k + 1), Err(Other(REWIND_FAILED)))
    else
      var after := Reads(pr, ClipAll(pr, t.grants, data));
      var told := if |pr.reports| <= |after.reports| then after.reports[|pr.reports|..] else [];
      (World(w.k + 1, after,
             w.calls + [Call(w.k, pr.pos, pr.done, pr.finalSent, after.pos, told, t.outcome)],
             if t.outcome.Ok? then Some(|w.calls|) else w.result),
       t.outcome)
  }

  function UploadEnv(sched: nat -> Try, data: Bytes): Env<World> {
    Env((w: World) => sched(w.k).ctxDone,
        (w: World) => Attempt(sched, data, w),
        (w: World, d: int) => (w, w.k > 0 && sched(w.k - 1).fired))
  }

  function UploadPolicy(pr: Reader): Policy {
    if pr.seekable then TRANSFER_POLICY else TRANSFER_POLICY.(maxAttempts := 1)
  }

  function Uploaded(sched: nat -> Try, data: Bytes, pr: Reader): Report<World> {
    DoFrom(UploadEnv(sched, data), UploadPolicy(pr), World(0, pr, [], None), 0)
  }

  /** The file of the successful call, or the error. */
  method UploadWithRetry(sched: nat -> Try, data: Bytes, seekable: bool, pos: nat, size: int, cb: bool)
    returns (result: Option<nat>, err: Outcome, ghost w: World)
    ensures var r := Uploaded(sched, data, NewReader(seekable, pos, size, cb));
            err == r.result && result == if r.result.Ok? then r.world.result else None
    ensures w == Uploaded(sched, data, NewReader(seekable, pos, size, cb)).world
  {
    var pr := NewReader(seekable, pos, size, cb);
    var policy := TRANSFER_POLICY;
    if !seekable {
      policy := policy.(maxAttempts := 1);
    }
    var v, e, _, _ := Do(UploadEnv(sched, data), policy, World(0, pr, [], None));
    w, err := v, e;
    result := if err.Ok? then v.result else None;
  }

  // ----- rewind safety

  /** Every call found fresh counters and the payload at its start, the first one wherever the
      caller had left it. */
  predicate CallFits(c: Call, i: nat, p0: nat, data: Bytes, cb: bool, total: int) {
    && c.start == (if i == 0 then p0 else 0) && c.done == 0 && !c.finalSent
    && c.start <= c.end <= |data|
    && (cb ==> Truthful(c.told, c.end - c.start, total, |c.told| > 0 && c.told[|c.told| - 1].final))
  }

  /** The call read as far as its attempt asked for, or to the end, and returned what it was to. */
  predicate FromSchedule(c: Call, sched: nat -> Try, data: Bytes) {
    var asked := c.start + Asked(sched(c.attempt).grants);
    c.end == (if asked <= |data| then asked else |data|) && c.outcome == sched(c.attempt).outcome
  }

  predicate InOrder(calls: seq<Call>, k: nat) {
    && (forall i | 0 <= i < |calls| :: calls[i].attempt < k)
    && (forall i, j | 0 <= i < j < |calls| :: calls[i].attempt < calls[j].attempt)
  }

  lemma InOrderThen(calls: seq<Call>, k: nat, c: Call)
    requires InOrder(calls, k) && c.attempt == k
    ensures InOrder(calls + [c], k + 1)
  {
  }

  /** How many of the first k attempts get past their rewind; the first has none to make. */
  function Rewound(sched: nat -> Try, seekable: bool, k: nat): nat {
    if k == 0 then 0
    else Rewound(sched, seekable, k - 1) + (if k > 1 && seekable && sched(k - 1).seekFails then 0 else 1)
  }

  predicate Good(w: World, sched: nat -> Try, p0: nat, data: Bytes) {
    && p0 <= |data| && w.pr.pos <= |data|
    && (w.pr.started <==> w.k > 0) && (w.k > 0 <==> |w.calls| > 0)
    && (w.k == 0 ==> w.pr.pos == p0)
    && |w.calls| == Rewound(sched, w.pr.seekable, w.k)
    && (forall i | 0 <= i < |w.calls| :: CallFits(w.calls[i], i, p0, data, w.pr.cb, w.pr.total))
    && (forall i | 0 <= i < |w.calls| :: FromSchedule(w.calls[i], sched, data))
    && InOrder(w.calls, w.k)
    && (forall i | 0 <= i < |w.calls| ::
          w.calls[i].outcome.Ok? ==> i == |w.calls| - 1 && w.result == Some(i))
    && (w.result.Some? ==> w.result.value < |w.calls| && w.calls[w.result.value].outcome.Ok?)
  }

  /** What one call leaves behind. */
  lemma CallIsGood(pr: Reader, gs: seq<Grant>, outcome: Outcome, k: nat, i: nat, p0: nat, data: Bytes)
    requires pr.done == 0 && !pr.finalSent && pr.pos == (if i == 0 then p0 else 0) <= |data|
    requires AllWellBehaved(pr, gs, data)
    ensures var after := Reads(pr, gs);
            && pr.reports <= after.reports
            && after == pr.(pos := after.pos, done := after.done, finalSent := after.finalSent,
                            reports := after.reports)
            && after.pos <= |data|
            && var told := after.reports[|pr.reports|..];
               CallFits(Call(k, pr.pos, 0, false, after.pos, told, outcome), i, p0, data, pr.cb, pr.total)
  {
    ReadsAreTracked(pr, gs, data);
  }

  /** One more call after the calls before it. */
  lemma CallsStayGood(calls: seq<Call>, c: Call, k: nat, sched: nat -> Try, p0: nat, data: Bytes, cb: bool, total: int)
    requires forall i | 0 <= i < |calls| :: CallFits(calls[i], i, p0, data, cb, total)
    requires forall i | 0 <= i < |calls| :: FromSchedule(calls[i], sched, data)
    requires InOrder(calls, k) && c.attempt == k
    requires CallFits(c, |calls|, p0, data, cb, total) && FromSchedule(c, sched, data)
    ensures var all := calls + [c];
            && (forall i | 0 <= i < |all| :: CallFits(all[i], i, p0, data, cb, total))
            && (forall i | 0 <= i < |all| :: FromSchedule(all[i], sched, data))
            && InOrder(all, k + 1)
  {
    InOrderThen(calls, k, c);
  }

  /** The call of an attempt that gets past its rewind. */
  lemma CallMade(sched: nat -> Try, data: Bytes, w: World, p0: nat) returns (c: Call)
    requires p0 <= |data| && w.pr.pos <= |data| && (w.pr.started <==> w.k > 0) && (w.k == 0 ==> w.pr.pos == p0)
    requires (w.k > 0 <==> |w.calls| > 0) && (w.pr.seekable || w.k == 0)
    requires Reset(w.pr, sched(w.k).seekFails).1
    ensures var (v, out) := Attempt(sched, data, w);
            && v.calls == w.calls + [c] && v.k == w.k + 1 && out == c.outcome
            && v.result == (if out.Ok? then Some(|w.calls|) else w.result)
            && v.pr.pos <= |data| && v.pr.started && v.pr.seekable == w.pr.seekable
            && v.pr.cb == w.pr.cb && v.pr.total == w.pr.total
    ensures c.attempt == w.k && FromSchedule(c, sched, data)
    ensures CallFits(c, |w.calls|, p0, data, w.pr.cb, w.pr.total)
  {
    var t := sched(w.k);
    var pr := Reset(w.pr, t.seekFails).0;
    ClipAllWellBehaved(pr, t.grants, data);
    CallIsGood(pr, ClipAll(pr, t.grants, data), t.outcome, w.k, |w.calls|, p0, data);
    ClipAllReads(pr, t.grants, data);
    c := Attempt(sched, data, w).0.calls[|w.calls|];
  }

  lemma AttemptIsGood(sched: nat -> Try, data: Bytes, w: World, p0: nat)
    requires Good(w, sched, p0, data) && w.result.None? && (w.pr.seekable || w.k == 0)
    ensures var (v, out) := Attempt(sched, data, w);
            && Good(v, sched, p0, data) && v.k == w.k + 1
            && v.pr.seekable == w.pr.seekable && v.pr.cb == w.pr.cb && v.pr.total == w.pr.total
            && (out.Ok? <==> v.result.Some?)
  {
    if Reset(w.pr, sched(w.k).seekFails).1 {
      var c := CallMade(sched, data, w, p0);
      CallsStayGood(w.calls, c, w.k, sched, p0, data, w.pr.cb, w.pr.total);
    }
  }

  /** Before attempt a, of at most n. */
  predicate Before(v: World, a: nat, n: nat, start: World, sched: nat -> Try, p0: nat, data: Bytes) {
    && Good(v, sched, p0, data) && v.result.None? && v.k == a < n && (v.pr.seekable || a == 0)
    && v.pr.seekable == start.pr.seekable && v.pr.cb == start.pr.cb && v.pr.total == start.pr.total
  }

  predicate Ended(v: World, out: Outcome, n: nat, start: World, sched: nat -> Try, p0: nat, data: Bytes) {
    && Good(v, sched, p0, data) && v.k <= n && (out.Ok? <==> v.result.Some?)
    && v.pr.seekable == start.pr.seekable && v.pr.cb == start.pr.cb && v.pr.total == start.pr.total
  }

  lemma LoopIsGood(sched: nat -> Try, data: Bytes, p: Policy, w: World, p0: nat)
    requires w.k == 0 && Good(w, sched, p0, data) && w.result.None? && (w.pr.seekable || Attempts(p) == 1)
    ensures var r := DoFrom(UploadEnv(sched, data), p, w, 0);
            Ended(r.world, r.result, Attempts(p), w, sched, p0, data)
  {
    var env, n := UploadEnv(sched, data), Attempts(p);
    forall v, a: nat | Before(v, a, n, w, sched, p0, data)
      ensures Ended(env.fn(v).0, env.fn(v).1, n, w, sched, p0, data)
      ensures env.fn(v).1.Err? && a < n - 1 ==> Before(env.fn(v).0, a + 1, n, w, sched, p0, data)
    {
      AttemptIsGood(sched, data, v, p0);
    }
    DoInduction(env, p, w, 0, (v, a: nat) => Before(v, a, n, w, sched, p0, data),
                (v, out) => Ended(v, out, n, w, sched, p0, data));
  }

  lemma UploadEnds(sched: nat -> Try, data: Bytes, seekable: bool, p0: nat, size: int, cb: bool)
    requires p0 <= |data|
    ensures var start := World(0, NewReader(seekable, p0, size, cb), [], None);
            var r := Uploaded(sched, data, start.pr);
            Ended(r.world, r.result, if seekable then 3 else 1, start, sched, p0, data)
  {
    var pr := NewReader(seekable, p0, size, cb);
    LoopIsGood(sched, data, UploadPolicy(pr), World(0, pr, [], None), p0);
  }

  /** For every schedule of failures: each call of the uploader starts with zeroed counters and at
      offset 0, or at the caller's offset the first time; a body that cannot be rewound is driven at
      most once, any other at most three times; and a file is returned exactly when the last call
      succeeded, which is the call it comes from. */
  lemma UploadRewinds(sched: nat -> Try, data: Bytes, seekable: bool, p0: nat, size: int, cb: bool)
    requires p0 <= |data|
    ensures var r := Uploaded(sched, data, NewReader(seekable, p0, size, cb));
            var n := |r.world.calls|;
            && n <= (if seekable then 3 else 1)
            && (forall i | 0 <= i < n :: CallFits(r.world.calls[i], i, p0, data, cb, size))
            && (r.result.Ok? <==> r.world.result.Some?)
            && (r.world.result.Some? ==> n > 0 && r.world.result == Some(n - 1) && r.world.calls[n - 1].outcome.Ok?)
  {
    UploadEnds(sched, data, seekable, p0, size, cb);
    var start := World(0, NewReader(seekable, p0, size, cb), [], None);
    var r := Uploaded(sched, data, start.pr);
    EndedWell(r.world, r.result, if seekable then 3 else 1, start, sched, p0, data);
  }

  lemma EndedWell(v: World, out: Outcome, n: nat, start: World, sched: nat -> Try, p0: nat, data: Bytes)
    requires Ended(v, out, n, start, sched, p0, data)
    ensures |v.calls| <= n
    ensures forall i | 0 <= i < |v.calls| :: CallFits(v.calls[i], i, p0, data, start.pr.cb, start.pr.total)
    ensures v.result.Some? ==>
              |v.calls| > 0 && v.result == Some(|v.calls| - 1) && v.calls[|v.calls| - 1].outcome.Ok?
  {
    RewoundBounds(sched, v.pr.seekable, v.k);
    if v.result.Some? {
      assert v.calls[v.result.value].outcome.Ok?;
    }
  }

  lemma {:induction false} RewoundBounds(sched: nat -> Try, seekable: bool, k: nat)
    ensures Rewound(sched, seekable, k) <= k
  {
    if k > 0 {
      RewoundBounds(sched, seekable, k - 1);
    }
  }

  /** A rewind that fails keeps its attempt from the uploader: over a whole run there is one call for
      each attempt that got past its rewind, and no other. */
  lemma FailedRewindStops(sched: nat -> Try, data: Bytes, seekable: bool, p0: nat, size: int, cb: bool)
    requires p0 <= |data|
    ensures var w := Uploaded(sched, data, NewReader(seekable, p0, size, cb)).world;
            |w.calls| == Rewound(sched, seekable, w.k)
  {
    UploadEnds(sched, data, seekable, p0, size, cb);
  }

  /** Each call reads as far as its attempt asks, to the end of the payload at most, and returns what
      the attempt decides; the calls are made in the order of the attempts. */
  lemma CallsFollowSchedule(sched: nat -> Try, data: Bytes, seekable: bool, p0: nat, size: int, cb: bool)
    requires p0 <= |data|
    ensures var w := Uploaded(sched, data, NewReader(seekable, p0, size, cb)).world;
            (forall c | c in w.calls :: FromSchedule(c, sched, data)) && InOrder(w.calls, w.k)
  {
    UploadEnds(sched, data, seekable, p0, size, cb);
  }

  // ----- how many attempts are made

  /** What attempt i comes to: the error of its rewind, or what the uploader returns. */
  function OutcomeOf(sched: nat -> Try, seekable: bool, i: nat): Outcome {
    if i > 0 && seekable && sched(i).seekFails then Err(Other(REWIND_FAILED)) else sched(i).outcome
  }

  function AsSchedule(sched: nat -> Try, seekable: bool): Schedule {
    Schedule((i: nat) => sched(i).ctxDone, (i: nat) => OutcomeOf(sched, seekable, i), (i: nat) => sched(i).fired)
  }

  predicate Trying(v: World, a: nat, seekable: bool) {
    v.k == a && v.pr.seekable == seekable && (v.pr.started <==> a > 0)
  }

  lemma AttemptComesTo(sched: nat -> Try, data: Bytes, v: World)
    requires v.pr.started <==> v.k > 0
    ensures var (u, out) := Attempt(sched, data, v);
            && out == OutcomeOf(sched, v.pr.seekable, v.k)
            && u.k == v.k + 1 && u.pr.seekable == v.pr.seekable && u.pr.started
  {
    var (reset, ok) := Reset(v.pr, sched(v.k).seekFails);
    ReadsKeepRest(reset, ClipAll(reset, sched(v.k).grants, data));
  }

  /** Every upload makes the attempts its schedule calls for, three at most, or one if the body cannot
      be rewound, and ends with the result of the last or with the context's error. */
  lemma UploadAttempts(sched: nat -> Try, data: Bytes, seekable: bool, p0: nat, size: int, cb: bool)
    ensures var r := Uploaded(sched, data, NewReader(seekable, p0, size, cb));
            TriedEnough(AsSchedule(sched, seekable), r.world.k, if seekable then 3 else 1, r.result)
  {
    var env, s := UploadEnv(sched, data), AsSchedule(sched, seekable);
    var pr := NewReader(seekable, p0, size, cb);
    var trying, count := (v: World, a: nat) => Trying(v, a, seekable), (v: World) => v.k;
    forall v, a: nat | trying(v, a)
      ensures Follows(env, s, v, a, trying, count)
    {
      AttemptComesTo(sched, data, v);
    }
    ScheduleFollowed(env, UploadPolicy(pr), World(0, pr, [], None), s, trying, count);
  }

  lemma SecondsOfWaits(r: Report<World>)
    requires WaitsAsDocumented(TRANSFER_POLICY, 0, r) && |r.waits| <= 2
    ensures forall i | 0 <= i < |r.waits| && !r.outcomes[i].Flood() ::
              r.waits[i] == (if i == 0 then SECOND else 2 * SECOND)
  {
    assert Pow2(0) == 1 && Pow2(1) == 2;
  }

  /** Between two attempts of a transfer there is one second, and then two, unless the server asks
      for another delay. */
  lemma TransferWaits(sched: nat -> Try, data: Bytes, p0: nat, size: int, cb: bool)
    ensures var r := Uploaded(sched, data, NewReader(true, p0, size, cb));
            && |r.waits| <= 2 && |r.waits| <= |r.outcomes|
            && forall i | 0 <= i < |r.waits| && !r.outcomes[i].Flood() ::
                 r.waits[i] == (if i == 0 then SECOND else 2 * SECOND)
  {
    var w := World(0, NewReader(true, p0, size, cb), [], None);
    DoKeeps(UploadEnv(sched, data), TRANSFER_POLICY, w, 0);
    DoWaits(UploadEnv(sched, data), TRANSFER_POLICY, w, 0);
    SecondsOfWaits(DoFrom(UploadEnv(sched, data), TRANSFER_POLICY, w, 0));
  }

  /** A rewind that fails is an error like any other to the retry loop: it ends the upload if and only
      if it was the last attempt's, or the wait after it is cut short, or the context is done then. */
  lemma RewindFailureEndsIff(sched: nat -> Try, data: Bytes, w: World, attempt: nat)
    requires attempt < Attempts(TRANSFER_POLICY) && w.k == attempt && w.pr.started && w.pr.seekable
    requires !sched(attempt).ctxDone && sched(attempt).seekFails
    ensures var r := DoFrom(UploadEnv(sched, data), TRANSFER_POLICY, w, attempt);
            r.world == w.(k := attempt + 1)
            <==> attempt == 2 || !sched(attempt).fired || sched(attempt + 1).ctxDone
  {
    var env := UploadEnv(sched, data);
    var v := w.(k := attempt + 1);
    assert env.fn(w) == (v, Err(Other(REWIND_FAILED)));
    if attempt < 2 && sched(attempt).fired && !sched(attempt + 1).ctxDone {
      GoesFurther(sched, data, v, attempt + 1);
    }
  }

  lemma {:induction false} GoesFurther(sched: nat -> Try, data: Bytes, w: World, attempt: nat)
    requires attempt < Attempts(TRANSFER_POLICY)
    ensures DoFrom(UploadEnv(sched, data), TRANSFER_POLICY, w, attempt).world.k >= w.k
    ensures !sched(w.k).ctxDone ==> DoFrom(UploadEnv(sched, data), TRANSFER_POLICY, w, attempt).world.k > w.k
    decreases Attempts(TRANSFER_POLICY) - attempt
  {
    var env := UploadEnv(sched, data);
    if !env.ctxDone(w) {
      var (v, out) := env.fn(w);
      assert v.k == w.k + 1;
      if out.Err? && attempt < Attempts(TRANSFER_POLICY) - 1 {
        GoesFurther(sched, data, v, attempt + 1);
      }
    }
  }

  /** So an upload can succeed after a rewind that failed. */
  lemma SucceedsAfterFailedRewind(data: Bytes, size: int, cb: bool) returns (sched: nat -> Try)
    ensures sched(1).seekFails
    ensures var r := Uploaded(sched, data, NewReader(true, 0, size, cb));
            r.result.Ok? && r.world.k == 3 && |r.world.calls| == 2
  {
    sched := (i: nat) => Try(false, i == 1, [], if i == 2 then Ok else Err(Other(REWIND_FAILED + 1)), true);
    var env := UploadEnv(sched, data);
    var w0 := World(0, NewReader(true, 0, size, cb), [], None);
    var w1 := Attempt(sched, data, w0).0;
    var w2 := Attempt(sched, data, w1).0;
    assert DoFrom(env, TRANSFER_POLICY, w2, 2).world.k == 3 && DoFrom(env, TRANSFER_POLICY, w2, 2).result.Ok?;
    assert DoFrom(env, TRANSFER_POLICY, w1, 1).world.k == 3 && DoFrom(env, TRANSFER_POLICY, w1, 1).result.Ok?;
    FailedRewindStops(sched, data, true, 0, size, cb);
    assert Rewound(sched, true, 3) == 2;
  }

  /** An uploader that succeeds only after reading to the end has, for a payload handed over at
      offset 0, sent all of it, however many attempts went before. */
  lemma WholePayloadSent(sched: nat -> Try, data: Bytes, seekable: bool, size: int, cb: bool)
    requires var w := Uploaded(sched, data, NewReader(seekable, 0, size, cb)).world;
             forall c | c in w.calls && c.outcome.Ok? :: c.end == |data|
    requires Uploaded(sched, data, NewReader(seekable, 0, size, cb)).result.Ok?
    ensures var w := Uploaded(sched, data, NewReader(seekable, 0, size, cb)).world;
            && w.result.Some? && w.result.value < |w.calls|
            && var c := w.calls[w.result.value];
               c.start <= c.end <= |data| && data[c.start..c.end] == data
  {
    UploadRewinds(sched, data, seekable, 0, size, cb);
    var w := Uploaded(sched, data, NewReader(seekable, 0, size, cb)).world;
    var c := w.calls[w.result.value];
    assert c in w.calls;
    assert CallFits(c, w.result.value, 0, data, cb, size);
  }

  // ----- what the uploader is offered

  function Offered(c: Call, data: Bytes): Bytes {
    if c.start <= |data| then data[c.start..] else []
  }

  /** Every call of the run is offered the same bytes. */
  predicate OfferedAlike(sched: nat -> Try, data: Bytes, seekable: bool, p0: nat, size: int, cb: bool) {
    var calls := Uploaded(sched, data, NewReader(seekable, p0, size, cb)).world.calls;
    forall c, d | c in calls && d in calls :: Offered(c, data) == Offered(d, data)
  }

  /** The schedule on which everything is tried and nothing succeeds. */
  function AllFail(): nat -> Try {
    (i: nat) => Try(false, false, [], Err(Other(REWIND_FAILED + 1)), true)
  }

  lemma AllFailTriesAll(data: Bytes, p0: nat, size: int, cb: bool)
    ensures Uploaded(AllFail(), data, NewReader(true, p0, size, cb)).world.k == 3
  {
    var env := UploadEnv(AllFail(), data);
    var w0 := World(0, NewReader(true, p0, size, cb), [], None);
    var w1 := Attempt(AllFail(), data, w0).0;
    var w2 := Attempt(AllFail(), data, w1).0;
    assert DoFrom(env, TRANSFER_POLICY, w2, 2).world.k == 3;
    assert DoFrom(env, TRANSFER_POLICY, w1, 1).world.k == 3;
  }

  /** All calls are offered the same bytes, whatever fails, if and only if the payload is handed over
      at offset 0 or cannot be rewound: a retry goes back to the start of the body, not to where the
      first attempt began. */
  lemma OfferedAlikeIff(data: Bytes, seekable: bool, p0: nat, size: int, cb: bool)
    requires p0 <= |data|
    ensures (forall sched: nat -> Try :: OfferedAlike(sched, data, seekable, p0, size, cb)) <==> p0 == 0 || !seekable
  {
    if p0 == 0 || !seekable {
      forall sched: nat -> Try
        ensures OfferedAlike(sched, data, seekable, p0, size, cb)
      {
        UploadRewinds(sched, data, seekable, p0, size, cb);
        var calls := Uploaded(sched, data, NewReader(seekable, p0, size, cb)).world.calls;
        assert forall i | 0 <= i < |calls| :: CallFits(calls[i], i, p0, data, cb, size);
      }
    } else {
      var calls := Uploaded(AllFail(), data, NewReader(true, p0, size, cb)).world.calls;
      UploadRewinds(AllFail(), data, true, p0, size, cb);
      FailedRewindStops(AllFail(), data, true, p0, size, cb);
      AllFailTriesAll(data, p0, size, cb);
      assert Rewound(AllFail(), true, 3) == 3;
      assert CallFits(calls[0], 0, p0, data, cb, size) && CallFits(calls[1], 1, p0, data, cb, size);
      assert calls[0] in calls && calls[1] in calls;
      assert |Offered(calls[0], data)| != |Offered(calls[1], data)|;
      assert !OfferedAlike(AllFail(), data, seekable, p0, size, cb);
    }
  }
}
