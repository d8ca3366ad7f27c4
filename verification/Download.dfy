/** DownloadTo of internal/transfer/transfer.go under File of internal/telegram/download/download.go:
    the stream driven by the retry loop into a sink that cannot be rewound, and the integrity check. */
module Download {
  import opened Options
  import opened Durations
  import opened Retry
  import opened Progress
  import Upload

  /** One attempt as the environment decides it; the writes are what the stream makes of it. */
  datatype Try = Try(ctxDone: bool, writes: seq<Chunk>, outcome: Outcome, fired: bool)

  /** log remembers what each attempt added to the sink. */
  datatype World = World(k: nat, pipe: Pipe, log: seq<Bytes>)

  function Attempt(sched: nat -> Try, w: World): (World, Outcome) {
    var t := sched(w.k);
    var pipe := Puts(w.pipe.(pw := ResetWriter(w.pipe.pw)), t.writes);
    (World(w.k + 1, pipe, w.log + [AllTaken(t.writes)]), t.outcome)
  }

  function DownloadEnv(sched: nat -> Try): Env<World> {
    Env((w: World) => sched(w.k).ctxDone,
        (w: World) => Attempt(sched, w),
        (w: World, d: int) => (w, w.k > 0 && sched(w.k - 1).fired))
  }

  function Start(sink: Bytes, size: int, cb: bool): World {
    World(0, Pipe(Writer(size, cb, 0, false, []), 0, sink), [])
  }

  function Downloaded(sched: nat -> Try, sink: Bytes, size: int, cb: bool): Report<World> {
    DoFrom(DownloadEnv(sched), Upload.TRANSFER_POLICY, Start(sink, size, cb), 0)
  }

  datatype FileResult =
    | Complete
    | BadArgument
    | FetchFailed
    | DownloadFailed(error: Error)
    | IntegrityFailed(wrote: int)

  method DownloadTo(sched: nat -> Try, pipe: Pipe, size: int)
    returns (after: Pipe, err: Outcome, ghost w: World)
    requires pipe.n == 0 && pipe.pw == Writer(size, pipe.pw.cb, 0, false, []) && size >= 0
    ensures var r := Downloaded(sched, pipe.sink, size, pipe.pw.cb);
            && err == r.result
            && after == r.world.pipe.(pw := if r.result.Ok? then FinishWriter(r.world.pipe.pw) else r.world.pipe.pw)
    ensures w == Downloaded(sched, pipe.sink, size, pipe.pw.cb).world
    ensures after.pw.reports == ReportsOf(Downloaded(sched, pipe.sink, size, pipe.pw.cb))
  {
    var v, e, _, _ := Do(DownloadEnv(sched), Upload.TRANSFER_POLICY, World(0, pipe, []));
    w, err := v, e;
    after := v.pipe;
    if err.Err? {
      return;
    }
    after := after.(pw := FinishWriter(after.pw));
  }

  /** document is the size of the document the message was found to carry. */
  method File(sched: nat -> Try, sink: Bytes, msgID: int, document: Option<int>, cb: bool)
    returns (res: FileResult, contents: Bytes)
    ensures res == FileOutcome(sched, sink, msgID, document, cb)
    ensures document.Some? && document.value >= 0 && msgID > 0 ==>
              contents == Downloaded(sched, sink, document.value, cb).world.pipe.sink
    ensures document.None? || document.value < 0 || msgID <= 0 ==> contents == sink
  {
    contents := sink;
    if msgID <= 0 {
      return BadArgument, contents;
    }
    if document.None? {
      return FetchFailed, contents;
    }
    var size := document.value;
    if size < 0 {
      return DownloadFailed(Other(0)), contents;
    }
    var cw, err, _ := DownloadTo(sched, Pipe(Writer(size, cb, 0, false, []), 0, sink), size);
    contents := cw.sink;
    if err.Err? {
      return DownloadFailed(err.error), contents;
    }
    if cw.n != size {
      return IntegrityFailed(cw.n), contents;
    }
    return Complete, contents;
  }

  function FileOutcome(sched: nat -> Try, sink: Bytes, msgID: int, document: Option<int>, cb: bool): FileResult {
    if msgID <= 0 then BadArgument
    else if document.None? then FetchFailed
    else if document.value < 0 then DownloadFailed(Other(0))
    else
      var r := Downloaded(sched, sink, document.value, cb);
      if r.result.Err? then DownloadFailed(r.result.error)
      else if r.world.pipe.n != document.value then IntegrityFailed(r.world.pipe.n)
      else Complete
  }

  // ----- soundness of the integrity check

  function Flatten(log: seq<Bytes>): Bytes {
    if |log| == 0 then [] else Flatten(log[..|log| - 1]) + log[|log| - 1]
  }

  predicate Good(w: World, sink: Bytes) {
    && w.pipe.sink == sink + Flatten(w.log)
    && w.pipe.n == |Flatten(w.log)|
    && |w.log| == w.k
  }

  lemma AttemptIsGood(sched: nat -> Try, w: World, sink: Bytes)
    requires Good(w, sink)
    ensures var v := Attempt(sched, w).0;
            && Good(v, sink) && v.log == w.log + [AllTaken(sched(w.k).writes)]
            && (v.pipe.pw.cb == w.pipe.pw.cb && v.pipe.pw.total == w.pipe.pw.total)
  {
    var t := sched(w.k);
    PutsAreTracked(w.pipe.(pw := ResetWriter(w.pipe.pw)), t.writes);
    var v := Attempt(sched, w).0;
    assert v.log[..|v.log| - 1] == w.log;
    assert sink + (Flatten(w.log) + AllTaken(t.writes)) == sink + Flatten(w.log) + AllTaken(t.writes);
  }

  /** Entry i of the log is what attempt i wrote. */
  predicate Logged(log: seq<Bytes>, sched: nat -> Try) {
    forall i | 0 <= i < |log| :: log[i] == AllTaken(sched(i).writes)
  }

  lemma AttemptIsLogged(sched: nat -> Try, w: World, sink: Bytes)
    requires Good(w, sink) && Logged(w.log, sched)
    ensures var v := Attempt(sched, w).0; Good(v, sink) && Logged(v.log, sched) && v.k == w.k + 1
  {
    AttemptIsGood(sched, w, sink);
  }

  predicate Before(v: World, a: nat, sched: nat -> Try, sink: Bytes) {
    Good(v, sink) && Logged(v.log, sched) && v.k == a
  }

  predicate Ended(v: World, out: Outcome, sched: nat -> Try, sink: Bytes) {
    Good(v, sink) && Logged(v.log, sched) && (out.Ok? ==> v.k > 0 && sched(v.k - 1).outcome.Ok?)
  }

  /** The log is complete, and success is the success of the last attempt. */
  lemma LoopIsGood(sched: nat -> Try, p: Policy, w: World, sink: Bytes)
    requires w.k == 0 && Good(w, sink) && Logged(w.log, sched)
    ensures var r := DoFrom(DownloadEnv(sched), p, w, 0); Ended(r.world, r.result, sched, sink)
  {
    var env := DownloadEnv(sched);
    forall v, a: nat | Before(v, a, sched, sink)
      ensures Before(env.fn(v).0, a + 1, sched, sink) && Ended(env.fn(v).0, env.fn(v).1, sched, sink)
    {
      AttemptIsLogged(sched, v, sink);
    }
    DoInduction(env, p, w, 0, (v, a: nat) => Before(v, a, sched, sink), (v, out) => Ended(v, out, sched, sink));
  }

  /** The downloader's contract for document doc: an attempt streams a prefix of it, and one that
      succeeds streams all of it. */
  predicate Streams(t: Try, doc: Bytes) {
    && AllTaken(t.writes) <= doc
    && (t.outcome.Ok? ==> AllTaken(t.writes) == doc)
  }

  lemma {:induction false} FlattenLength(log: seq<Bytes>)
    requires |log| > 0
    ensures |Flatten(log)| >= |log[|log| - 1]|
    ensures |Flatten(log)| == |log[|log| - 1]| <==> forall i | 0 <= i < |log| - 1 :: log[i] == []
    decreases |log|
  {
    var n := |log| - 1;
    var front := log[..n];
    if n > 0 {
      FlattenLength(front);
      assert log[n - 1] == front[n - 1];
      if forall i | 0 <= i < n :: log[i] == [] {
        forall i | 0 <= i < n - 1
          ensures front[i] == []
        {
          assert front[i] == log[i];
        }
      }
      if |Flatten(front)| == 0 {
        forall i | 0 <= i < n
          ensures log[i] == []
        {
          assert log[i] == front[i];
        }
      }
    }
  }

  lemma {:induction false} FlattenEmpty(log: seq<Bytes>)
    requires forall i | 0 <= i < |log| :: log[i] == []
    ensures Flatten(log) == []
    decreases |log|
  {
    if |log| > 0 {
      FlattenEmpty(log[..|log| - 1]);
    }
  }

  /** A log whose last entry is the document is as long as the document only if it is nothing else. */
  lemma LogIsDocument(log: seq<Bytes>, doc: Bytes)
    requires |log| > 0 && log[|log| - 1] == doc
    ensures |Flatten(log)| == |doc| <==> forall i | 0 <= i < |log| - 1 :: log[i] == []
    ensures |Flatten(log)| == |doc| ==> Flatten(log) == doc
  {
    FlattenLength(log);
    if |Flatten(log)| == |doc| {
      FlattenEmpty(log[..|log| - 1]);
      assert [] + doc == doc;
    }
  }

  /** The count comes out right exactly when every attempt before the last one wrote nothing. */
  lemma CountedRight(w: World, sched: nat -> Try, sink: Bytes, doc: Bytes)
    requires Ended(w, Ok, sched, sink) && forall i :: Streams(sched(i), doc)
    ensures |w.log| > 0
    ensures w.pipe.n == |doc| <==> forall i | 0 <= i < |w.log| - 1 :: w.log[i] == []
    ensures w.pipe.n == |doc| ==> w.pipe.sink == sink + doc
  {
    assert Streams(sched(w.k - 1), doc);
    LogIsDocument(w.log, doc);
  }

  /** File reports a complete download exactly when the last attempt succeeded and every attempt
      before it wrote nothing, and then what the sink gained is the document. */
  lemma DownloadSound(sched: nat -> Try, sink: Bytes, doc: Bytes, msgID: int, cb: bool)
    requires msgID > 0 && forall i :: Streams(sched(i), doc)
    ensures var r := Downloaded(sched, sink, |doc|, cb);
            var log := r.world.log;
            && (FileOutcome(sched, sink, msgID, Some(|doc|), cb).Complete? <==>
                  r.result.Ok? && forall i | 0 <= i < |log| - 1 :: log[i] == [])
            && (FileOutcome(sched, sink, msgID, Some(|doc|), cb).Complete? ==> r.world.pipe.sink == sink + doc)
  {
    LoopIsGood(sched, Upload.TRANSFER_POLICY, Start(sink, |doc|, cb), sink);
    var r := Downloaded(sched, sink, |doc|, cb);
    if r.result.Ok? {
      CountedRight(r.world, sched, sink, doc);
    }
  }

  // ----- how many attempts are made

  function AsSchedule(sched: nat -> Try): Schedule {
    Schedule((i: nat) => sched(i).ctxDone, (i: nat) => sched(i).outcome, (i: nat) => sched(i).fired)
  }

  /** Every download makes the attempts its schedule calls for, three at most, and ends with the
      result of the last or with the context's error. */
  lemma DownloadAttempts(sched: nat -> Try, sink: Bytes, size: int, cb: bool)
    ensures var r := Downloaded(sched, sink, size, cb);
            TriedEnough(AsSchedule(sched), r.world.k, 3, r.result)
  {
    var env, s := DownloadEnv(sched), AsSchedule(sched);
    var trying, count := (v: World, a: nat) => v.k == a, (v: World) => v.k;
    forall v, a: nat | trying(v, a)
      ensures Follows(env, s, v, a, trying, count)
    {
    }
    ScheduleFollowed(env, Upload.TRANSFER_POLICY, Start(sink, size, cb), s, trying, count);
  }

  /** What File answers when it does not report a complete download: a bad argument or a document
      that is not found before anything is written, the download's own error, or the number of bytes
      all attempts together have written. */
  lemma FileAnswers(sched: nat -> Try, sink: Bytes, msgID: int, document: Option<int>, cb: bool)
    ensures var answer := FileOutcome(sched, sink, msgID, document, cb);
            && (answer.BadArgument? <==> msgID <= 0)
            && (answer.FetchFailed? <==> msgID > 0 && document.None?)
            && (msgID > 0 && document.Some? && document.value >= 0 ==>
                  var r := Downloaded(sched, sink, document.value, cb);
                  var wrote := |Flatten(r.world.log)|;
                  && answer == (if r.result.Err? then DownloadFailed(r.result.error)
                                else if wrote != document.value then IntegrityFailed(wrote) else Complete)
                  && r.world.pipe.sink == sink + Flatten(r.world.log)
                  && Logged(r.world.log, sched))
  {
    if msgID > 0 && document.Some? && document.value >= 0 {
      LoopIsGood(sched, Upload.TRANSFER_POLICY, Start(sink, document.value, cb), sink);
    }
  }

  // ----- what is reported

  /** While attempts are made, no report is final, each is under the size, and the count is that of
      the last attempt. */
  predicate Reported(w: World, size: int, cb: bool) {
    && w.pipe.pw == Writer(size, cb, w.pipe.pw.done, false, w.pipe.pw.reports)
    && (forall i | 0 <= i < |w.pipe.pw.reports| ::
          !w.pipe.pw.reports[i].final && w.pipe.pw.reports[i].total == size)
    && (!cb ==> w.pipe.pw.reports == [])
    && (|w.log| > 0 ==> w.pipe.pw.done == |w.log[|w.log| - 1]|)
  }

  lemma AttemptReports(sched: nat -> Try, w: World, size: int, cb: bool)
    requires Reported(w, size, cb)
    ensures Reported(Attempt(sched, w).0, size, cb) && |Attempt(sched, w).0.log| > 0
  {
    var start := w.pipe.(pw := ResetWriter(w.pipe.pw));
    PutsAreTracked(start, sched(w.k).writes);
    var old_, new_ := w.pipe.pw.reports, Attempt(sched, w).0.pipe.pw.reports;
    forall i | 0 <= i < |new_|
      ensures !new_[i].final && new_[i].total == size
    {
      if i < |old_| {
        assert new_[i] == old_[i];
      } else if cb {
        assert new_[i] == new_[|old_|..][i - |old_|];
        assert new_[|new_| - 1] == new_[|old_|..][|new_| - |old_| - 1];
      }
    }
  }

  lemma LoopReports(sched: nat -> Try, p: Policy, w: World, size: int, cb: bool)
    requires Reported(w, size, cb)
    ensures var r := DoFrom(DownloadEnv(sched), p, w, 0);
            Reported(r.world, size, cb) && (r.result.Ok? ==> |r.world.log| > 0)
  {
    var env := DownloadEnv(sched);
    forall v | Reported(v, size, cb)
      ensures Reported(env.fn(v).0, size, cb) && |env.fn(v).0.log| > 0
    {
      AttemptReports(sched, v, size, cb);
    }
    DoInduction(env, p, w, 0, (v: World, a: nat) => Reported(v, size, cb),
                (v: World, out: Outcome) => Reported(v, size, cb) && (out.Ok? ==> |v.log| > 0));
  }

  function ReportsOf(r: Report<World>): seq<Notice> {
    (if r.result.Ok? then FinishWriter(r.world.pipe.pw) else r.world.pipe.pw).reports
  }

  /** Over a whole download, whatever fails on the way: a success is reported as final once, and
      last; its count is the size if and only if the last attempt wrote no more than that; and a
      failure is never reported as final. */
  lemma ReportedOnce(sched: nat -> Try, sink: Bytes, size: nat, cb: bool)
    ensures var r := Downloaded(sched, sink, size, cb);
            var rs := ReportsOf(r);
            && (forall i | 0 <= i < |rs| :: rs[i].total == size)
            && (forall i | 0 <= i < |rs| :: rs[i].final <==> r.result.Ok? && i == |rs| - 1)
            && (r.result.Ok? && cb ==>
                  && |rs| > 0 && |r.world.log| > 0
                  && (rs[|rs| - 1].done == size <==> |r.world.log[|r.world.log| - 1]| <= size))
            && (!cb ==> rs == [])
  {
    LoopReports(sched, Upload.TRANSFER_POLICY, Start(sink, size, cb), size, cb);
  }

  // ----- without the second half of the contract

  /** Attempts stream prefixes of doc, and the contents are wrong although File reports success. */
  ghost predicate Masks(sched: nat -> Try, sink: Bytes, doc: Bytes, cb: bool) {
    && (forall i :: AllTaken(sched(i).writes) <= doc)
    && FileOutcome(sched, sink, 1, Some(|doc|), cb).Complete?
    && Downloaded(sched, sink, |doc|, cb).world.pipe.sink != sink + doc
  }

  predicate Uniform(doc: Bytes) {
    forall i, j | 0 <= i < |doc| && 0 <= j < |doc| :: doc[i] == doc[j]
  }

  /** One byte before a failure, and then all but the last one with a claim of success. */
  function DirtyThenShort(doc: Bytes): nat -> Try
    requires |doc| > 0
  {
    var n := |doc| - 1;
    (i: nat) => if i == 0 then Try(false, [Chunk(doc[..1], false, 1)], Err(Other(0)), true)
                else Try(false, [Chunk(doc[..n], false, n)], Ok, true)
  }

  lemma OneWrite(p: Bytes)
    ensures AllTaken([Chunk(p, false, |p|)]) == p
  {
    var cs := [Chunk(p, false, |p|)];
    assert cs[..0] == [] && p[..|p|] == p;
  }

  lemma DirtyThenShortRun(doc: Bytes, sink: Bytes, cb: bool)
    requires |doc| > 0
    ensures var sched := DirtyThenShort(doc);
            var r := Downloaded(sched, sink, |doc|, cb);
            && (forall i :: AllTaken(sched(i).writes) <= doc)
            && r.result.Ok? && r.world.pipe.n == |doc|
            && r.world.pipe.sink == sink + (doc[..1] + doc[..|doc| - 1])
  {
    var sched, n := DirtyThenShort(doc), |doc| - 1;
    OneWrite(doc[..1]);
    OneWrite(doc[..n]);
    var w0 := Start(sink, |doc|, cb);
    AttemptIsGood(sched, w0, sink);
    var w1 := Attempt(sched, w0).0;
    AttemptIsGood(sched, w1, sink);
    var w2 := Attempt(sched, w1).0;
    assert w2.log[..1] == w1.log && w1.log[..0] == [];
    assert Flatten(w1.log) == doc[..1] && Flatten(w2.log) == doc[..1] + doc[..n];
    var env := DownloadEnv(sched);
    assert DoFrom(env, Upload.TRANSFER_POLICY, w1, 1).world == w2;
    assert DoFrom(env, Upload.TRANSFER_POLICY, w0, 0).world == w2;
  }

  /** A sequence that stays the same when it is shifted by one has one byte throughout. */
  lemma {:induction false} ShiftedAlike(doc: Bytes, k: nat)
    requires k < |doc| && doc[..1] + doc[..|doc| - 1] == doc
    ensures doc[k] == doc[0]
  {
    if k > 0 {
      assert (doc[..1] + doc[..|doc| - 1])[k] == doc[k - 1];
      ShiftedAlike(doc, k - 1);
    }
  }

  lemma CountsCanMask(doc: Bytes, sink: Bytes, cb: bool) returns (sched: nat -> Try)
    requires !Uniform(doc)
    ensures Masks(sched, sink, doc, cb)
  {
    sched := DirtyThenShort(doc);
    DirtyThenShortRun(doc, sink, cb);
    var wrong := doc[..1] + doc[..|doc| - 1];
    if wrong == doc {
      forall k | 0 <= k < |doc|
        ensures doc[k] == doc[0]
      {
        ShiftedAlike(doc, k);
      }
      assert false;
    }
    assert (sink + wrong)[|sink|..] == wrong && (sink + doc)[|sink|..] == doc;
  }

  lemma {:induction false} FlattenOfPrefixes(log: seq<Bytes>, doc: Bytes)
    requires forall i | 0 <= i < |log| :: log[i] <= doc
    ensures forall x | x in Flatten(log) :: x in doc
    decreases |log|
  {
    if |log| > 0 {
      FlattenOfPrefixes(log[..|log| - 1], doc);
      var last := log[|log| - 1];
      assert last == doc[..|last|];
    }
  }

  lemma UniformNeverMasked(sched: nat -> Try, sink: Bytes, doc: Bytes, cb: bool)
    requires Uniform(doc)
    ensures !Masks(sched, sink, doc, cb)
  {
    if (forall i :: AllTaken(sched(i).writes) <= doc) && FileOutcome(sched, sink, 1, Some(|doc|), cb).Complete? {
      LoopIsGood(sched, Upload.TRANSFER_POLICY, Start(sink, |doc|, cb), sink);
      var log := Downloaded(sched, sink, |doc|, cb).world.log;
      FlattenOfPrefixes(log, doc);
      forall k | 0 <= k < |doc|
        ensures Flatten(log)[k] == doc[k]
      {
        assert Flatten(log)[k] in Flatten(log);
      }
      assert Flatten(log) == doc;
    }
  }

  /** The completeness of successes is needed: if an attempt may claim success after any prefix, what
      earlier attempts left behind and a short success can add up to the right count and the wrong
      contents, for exactly the documents whose bytes are not all the same. */
  lemma CanMaskIff(doc: Bytes, sink: Bytes, cb: bool)
    ensures (exists sched: nat -> Try :: Masks(sched, sink, doc, cb)) <==> !Uniform(doc)
  {
    if Uniform(doc) {
      forall sched: nat -> Try
        ensures !Masks(sched, sink, doc, cb)
      {
        UniformNeverMasked(sched, sink, doc, cb);
      }
    } else {
      var sched := CountsCanMask(doc, sink, cb);
    }
  }
}
