/** The progress-tracking reader and writer of internal/transfer/transfer.go and the counting
    writer of internal/telegram/download/download.go.

    A callback's calls are logged; `final` is history, the callback itself sees done and total. */
module Progress {

  type Bytes = seq<bv8>

  datatype Notice = Notice(done: int, total: int, final: bool)

  /** emitProgress: what the callback is told, if there is one, and the flag afterwards. */
  function Emit(cb: bool, done: int, total: int, final: bool, finalSent: bool): (seq<Notice>, bool) {
    if !cb || (final && finalSent) then ([], finalSent)
    else ([Notice(if final && 0 <= total && done < total then total else done, total, final)], finalSent || final)
  }

  method EmitProgress(onProgress: bool, done: int, total: int, final: bool, finalSent: bool)
    returns (told: seq<Notice>, sent: bool)
    ensures (told, sent) == Emit(onProgress, done, total, final, finalSent)
  {
    told, sent := [], finalSent;
    if !onProgress {
      return;
    }
    var d := done;
    if final {
      if sent {
        return;
      }
      sent := true;
      if total >= 0 && d < total {
        d := total;
      }
    }
    told := [Notice(d, total, final)];
  }

  // ----- the reader

  /** One answer of the wrapped reader: how many bytes, and whether with io.EOF or another error. */
  datatype Grant = Grant(n: nat, eof: bool, failed: bool)

  datatype Reader = Reader(
    seekable: bool,
    total: int,
    cb: bool,
    pos: nat,               // of the wrapped reader
    done: int,
    finalSent: bool,
    started: bool,
    reports: seq<Notice>)

  function NewReader(seekable: bool, pos: nat, total: int, cb: bool): Reader {
    Reader(seekable, total, cb, pos, 0, false, false, [])
  }

  /** reset: rewinds on every call but the first; a rewind that fails changes nothing. */
  function Reset(pr: Reader, seekFails: bool): (r: (Reader, bool)) {
    var rewinds := pr.started && pr.seekable;
    if rewinds && seekFails then (pr, false)
    else (pr.(pos := if rewinds then 0 else pr.pos, started := true, done := 0, finalSent := false), true)
  }

  /** A reader that never invents bytes and reports the end only where it is. */
  predicate WellBehaved(g: Grant, pos: nat, data: Bytes) {
    pos + g.n <= |data| && (g.eof ==> pos + g.n == |data|)
  }

  function ReadOne(pr: Reader, g: Grant): Reader {
    var done := pr.done + g.n;
    var (some, sent) := if g.n > 0 then Emit(pr.cb, done, pr.total, false, pr.finalSent) else ([], pr.finalSent);
    var (last, sent') := if g.eof then Emit(pr.cb, done, pr.total, true, sent) else ([], sent);
    pr.(pos := pr.pos + g.n, done := done, finalSent := sent', reports := pr.reports + some + last)
  }

  function Reads(pr: Reader, gs: seq<Grant>): Reader {
    if |gs| == 0 then pr else ReadOne(Reads(pr, gs[..|gs| - 1]), gs[|gs| - 1])
  }

  lemma {:induction false} ReadsKeepRest(pr: Reader, gs: seq<Grant>)
    ensures var r := Reads(pr, gs);
            r == pr.(pos := r.pos, done := r.done, finalSent := r.finalSent, reports := r.reports)
    decreases |gs|
  {
    if |gs| > 0 {
      ReadsKeepRest(pr, gs[..|gs| - 1]);
    }
  }

  predicate AllWellBehaved(pr: Reader, gs: seq<Grant>, data: Bytes) {
    |gs| == 0
    || (AllWellBehaved(pr, gs[..|gs| - 1], data) && WellBehaved(gs[|gs| - 1], Reads(pr, gs[..|gs| - 1]).pos, data))
  }

  /** What a well-behaved reader makes of being asked to grant g with its payload at pos. */
  function Clip(g: Grant, pos: nat, data: Bytes): Grant {
    var left := if pos <= |data| then |data| - pos else 0;
    var n := if g.n <= left then g.n else left;
    Grant(n, g.eof && n == left, g.failed)
  }

  function ClipAll(pr: Reader, gs: seq<Grant>, data: Bytes): seq<Grant> {
    if |gs| == 0 then []
    else
      var before := ClipAll(pr, gs[..|gs| - 1], data);
      before + [Clip(gs[|gs| - 1], Reads(pr, before).pos, data)]
  }

  lemma {:induction false} ClipAllWellBehaved(pr: Reader, gs: seq<Grant>, data: Bytes)
    requires pr.pos <= |data|
    ensures AllWellBehaved(pr, ClipAll(pr, gs, data), data)
    ensures pr.pos <= Reads(pr, ClipAll(pr, gs, data)).pos <= |data|
    decreases |gs|
  {
    if |gs| > 0 {
      ClipAllWellBehaved(pr, gs[..|gs| - 1], data);
      var before := ClipAll(pr, gs[..|gs| - 1], data);
      var all := ClipAll(pr, gs, data);
      assert all[..|all| - 1] == before;
    }
  }

  function Asked(gs: seq<Grant>): nat {
    if |gs| == 0 then 0 else Asked(gs[..|gs| - 1]) + gs[|gs| - 1].n
  }

  /** However it is cut, a reader gets as far as it asks for, or to the end. */
  lemma {:induction false} ClipAllReads(pr: Reader, gs: seq<Grant>, data: Bytes)
    requires pr.pos <= |data|
    ensures var all := pr.pos + Asked(gs);
            Reads(pr, ClipAll(pr, gs, data)).pos == if all <= |data| then all else |data|
    decreases |gs|
  {
    if |gs| > 0 {
      ClipAllReads(pr, gs[..|gs| - 1], data);
      var before, all := ClipAll(pr, gs[..|gs| - 1], data), ClipAll(pr, gs, data);
      assert all[..|all| - 1] == before;
    }
  }

  /** What is told about one attempt: counts that never go back, each under the same total, and at
      most one final report, the last one, which is complete unless too many bytes came. */
  predicate Truthful(rs: seq<Notice>, done: int, total: int, finalSent: bool) {
    && (forall i, j | 0 <= i < j < |rs| :: rs[i].done <= rs[j].done)
    && (forall i | 0 <= i < |rs| :: rs[i].total == total && (rs[i].final ==> i == |rs| - 1))
    && (finalSent <==> |rs| > 0 && rs[|rs| - 1].final)
    && (|rs| == 0 ==> done == 0)
    && (|rs| > 0 && !finalSent ==> rs[|rs| - 1].done == done)
    && (finalSent ==> rs[|rs| - 1].done == if 0 <= total && done < total then total else done)
  }

  /** Through any fragmentation, the bytes handed on are the next bytes of the payload, done counts
      exactly those, and the reports are truthful. */
  lemma {:induction false} ReadsAreTracked(pr: Reader, gs: seq<Grant>, data: Bytes)
    requires pr.done == 0 && !pr.finalSent && pr.pos <= |data| && AllWellBehaved(pr, gs, data)
    ensures var r := Reads(pr, gs);
            && r == pr.(pos := r.pos, done := r.done, finalSent := r.finalSent, reports := r.reports)
            && pr.pos <= r.pos <= |data| && r.done == r.pos - pr.pos
            && pr.reports <= r.reports
            && (pr.cb ==> Truthful(r.reports[|pr.reports|..], r.done, pr.total, r.finalSent))
            && (!pr.cb ==> r.reports == pr.reports && !r.finalSent)
            && (r.finalSent ==> r.pos == |data|)
            && (pr.cb ==> (r.finalSent <==> exists i :: 0 <= i < |gs| && gs[i].eof))
    decreases |gs|
  {
    if |gs| > 0 {
      var before, g := gs[..|gs| - 1], gs[|gs| - 1];
      ReadsAreTracked(pr, before, data);
      ReadIsTracked(pr, Reads(pr, before), g, data);
      ReadTells(Reads(pr, before), g);
      if i :| 0 <= i < |before| && before[i].eof {
        assert gs[i].eof;
      }
      if i :| 0 <= i < |gs| && gs[i].eof {
        assert i < |before| ==> before[i].eof;
      }
    }
  }

  /** A count that has grown is told after what was told. */
  lemma ToldMore(rs: seq<Notice>, done: int, total: int, n: nat)
    requires Truthful(rs, done, total, false)
    ensures Truthful(rs + [Notice(done + n, total, false)], done + n, total, false)
  {
  }

  /** The final report is told last. */
  lemma ToldLast(rs: seq<Notice>, done: int, total: int)
    requires Truthful(rs, done, total, false)
    ensures Truthful(rs + [Notice(if 0 <= total && done < total then total else done, total, true)], done, total, true)
  {
  }

  /** One read, after the final report or before it. */
  lemma ReadIsTracked(pr: Reader, mid: Reader, g: Grant, data: Bytes)
    requires pr.reports <= mid.reports && mid.cb == pr.cb && mid.total == pr.total && 0 <= mid.done
    requires pr.cb ==> Truthful(mid.reports[|pr.reports|..], mid.done, pr.total, mid.finalSent)
    requires WellBehaved(g, mid.pos, data) && (mid.finalSent ==> mid.pos == |data|)
    requires !pr.cb ==> mid.reports == pr.reports && !mid.finalSent
    ensures var r := ReadOne(mid, g);
            && pr.reports <= r.reports
            && (pr.cb ==> Truthful(r.reports[|pr.reports|..], r.done, pr.total, r.finalSent))
            && (!pr.cb ==> r.reports == pr.reports && !r.finalSent)
            && (r.finalSent ==> r.pos == |data|)
  {
    ReadTells(mid, g);
    if pr.cb && !mid.finalSent {
      TellTheTruth(mid.reports[|pr.reports|..], mid.done, pr.total, g);
      TailOfSum(mid.reports, Told(mid.done, pr.total, g), |pr.reports|);
    }
  }

  /** What one read tells, when a callback is there and the final report is not out yet. */
  function Told(done: int, total: int, g: Grant): seq<Notice> {
    var now := done + g.n;
    (if g.n > 0 then [Notice(now, total, false)] else [])
    + (if g.eof then [Notice(if 0 <= total && now < total then total else now, total, true)] else [])
  }

  lemma TellTheTruth(rs: seq<Notice>, done: int, total: int, g: Grant)
    requires Truthful(rs, done, total, false)
    ensures Truthful(rs + Told(done, total, g), done + g.n, total, g.eof)
  {
    var more := CountTold(rs, done, total, g.n);
    if g.eof {
      EndTold(rs, more, done, total, g);
    } else {
      assert rs + Told(done, total, g) == more;
    }
  }

  /** The final report after the count of the same read. */
  lemma EndTold(rs: seq<Notice>, more: seq<Notice>, done: int, total: int, g: Grant)
    requires g.eof && more == rs + (if g.n > 0 then [Notice(done + g.n, total, false)] else [])
    requires Truthful(more, done + g.n, total, false)
    ensures Truthful(rs + Told(done, total, g), done + g.n, total, true)
  {
    ToldLast(more, done + g.n, total);
    ToldEnds(rs, done, total, g);
  }

  lemma ToldEnds(rs: seq<Notice>, done: int, total: int, g: Grant)
    requires g.eof
    ensures rs + Told(done, total, g)
            == rs + (if g.n > 0 then [Notice(done + g.n, total, false)] else [])
               + [Notice(if 0 <= total && done + g.n < total then total else done + g.n, total, true)]
  {
  }

  lemma CountTold(rs: seq<Notice>, done: int, total: int, n: nat) returns (more: seq<Notice>)
    requires Truthful(rs, done, total, false)
    ensures more == rs + (if n > 0 then [Notice(done + n, total, false)] else [])
    ensures Truthful(more, done + n, total, false)
  {
    more := rs;
    if n > 0 {
      ToldMore(rs, done, total, n);
      more := rs + [Notice(done + n, total, false)];
    }
  }

  lemma TailOfSum<T>(xs: seq<T>, ys: seq<T>, n: nat)
    requires n <= |xs|
    ensures (xs + ys)[n..] == xs[n..] + ys
  {
  }

  /** One read appends exactly what it tells. */
  lemma ReadTells(mid: Reader, g: Grant)
    ensures var r := ReadOne(mid, g);
            && (!mid.cb || (mid.finalSent && g.n == 0) ==> r.reports == mid.reports && r.finalSent == mid.finalSent)
            && (mid.cb && !mid.finalSent ==>
                  r.reports == mid.reports + Told(mid.done, mid.total, g) && r.finalSent == g.eof)
  {
  }

  /** The wrapped io.Reader, with or without io.Seeker. */
  class Body {
    const data: Bytes
    const seekable: bool
    var pos: nat

    constructor (data: Bytes, seekable: bool, pos: nat)
      ensures this.data == data && this.seekable == seekable && this.pos == pos
    {
      this.data, this.seekable, this.pos := data, seekable, pos;
    }

    /** The grant is the environment's choice of how much to hand out and what to report. */
    method Read(max: nat, g: Grant) returns (chunk: Bytes, eof: bool, failed: bool)
      requires WellBehaved(g, pos, data) && g.n <= max
      modifies this
      ensures chunk == data[old(pos)..old(pos) + g.n] && pos == old(pos) + g.n && eof == g.eof && failed == g.failed
    {
      chunk, eof, failed := data[pos..pos + g.n], g.eof, g.failed;
      pos := pos + g.n;
    }

    method SeekStart(fails: bool) returns (ok: bool)
      modifies this
      ensures ok == !fails && pos == if ok then 0 else old(pos)
    {
      ok := !fails;
      if ok {
        pos := 0;
      }
    }
  }

  class ProgressReader {
    const r: Body
    const total: int
    const onProgress: bool
    var done: int
    var finalSent: bool
    var started: bool
    var reports: seq<Notice>

    constructor (r: Body, total: int, onProgress: bool)
      ensures this.r == r && this.total == total && this.onProgress == onProgress
      ensures View() == NewReader(r.seekable, r.pos, total, onProgress)
    {
      this.r, this.total, this.onProgress := r, total, onProgress;
      done, finalSent, started, reports := 0, false, false, [];
    }

    ghost function View(): Reader
      reads this, r
    {
      Reader(r.seekable, total, onProgress, r.pos, done, finalSent, started, reports)
    }

    method ResetForAttempt(seekFails: bool) returns (ok: bool)
      modifies this, r
      ensures (View(), ok) == Reset(old(View()), seekFails)
    {
      if started && r.seekable {
        ok := r.SeekStart(seekFails);
        if !ok {
          return;
        }
      }
      started := true;
      done := 0;
      finalSent := false;
      ok := true;
    }

    /** A done context answers before the wrapped reader is touched; otherwise its bytes and its
        verdict are passed on unchanged. */
    method Read(ctxDone: bool, max: nat, g: Grant) returns (chunk: Bytes, eof: bool, failed: bool)
      requires WellBehaved(g, r.pos, r.data) && g.n <= max
      modifies this, r
      ensures ctxDone ==> chunk == [] && !eof && failed && View() == old(View())
      ensures !ctxDone ==> chunk == r.data[old(r.pos)..old(r.pos) + g.n] && eof == g.eof && failed == g.failed
      ensures !ctxDone ==> View() == ReadOne(old(View()), g)
    {
      if ctxDone {
        return [], false, true;
      }
      chunk, eof, failed := r.Read(max, g);
      if g.n > 0 {
        done := done + g.n;
        var told;
        told, finalSent := EmitProgress(onProgress, done, total, false, finalSent);
        reports := reports + told;
      }
      if eof {
        var told;
        told, finalSent := EmitProgress(onProgress, done, total, true, finalSent);
        reports := reports + told;
      }
    }
  }

  // ----- the writer

  datatype Writer = Writer(total: int, cb: bool, done: int, finalSent: bool, reports: seq<Notice>)

  /** The writer, the byte counter under it, and the sink under that. */
  datatype Pipe = Pipe(pw: Writer, n: int, sink: Bytes)

  /** One write: the bytes offered, whether the context was done, and how many the sink took. */
  datatype Chunk = Chunk(p: Bytes, ctxDone: bool, accepted: nat)

  function Taken(c: Chunk): Bytes {
    if c.ctxDone || c.accepted > |c.p| then [] else c.p[..c.accepted]
  }

  function Put(pipe: Pipe, c: Chunk): Pipe {
    var n := |Taken(c)|;
    var done := pipe.pw.done + n;
    var (told, sent) := if n > 0 then Emit(pipe.pw.cb, done, pipe.pw.total, false, pipe.pw.finalSent)
                        else ([], pipe.pw.finalSent);
    Pipe(pipe.pw.(done := done, finalSent := sent, reports := pipe.pw.reports + told),
         pipe.n + n, pipe.sink + Taken(c))
  }

  function ResetWriter(pw: Writer): Writer {
    pw.(done := 0, finalSent := false)
  }

  function FinishWriter(pw: Writer): Writer {
    var (told, sent) := Emit(pw.cb, pw.done, pw.total, true, pw.finalSent);
    pw.(finalSent := sent, reports := pw.reports + told)
  }

  function Puts(pipe: Pipe, cs: seq<Chunk>): Pipe {
    if |cs| == 0 then pipe else Put(Puts(pipe, cs[..|cs| - 1]), cs[|cs| - 1])
  }

  function AllTaken(cs: seq<Chunk>): Bytes {
    if |cs| == 0 then [] else AllTaken(cs[..|cs| - 1]) + Taken(cs[|cs| - 1])
  }

  predicate PutsTracked(pipe: Pipe, q: Pipe, taken: Bytes) {
    && q.sink == pipe.sink + taken && q.n == pipe.n + |taken|
    && q.pw == pipe.pw.(done := |taken|, reports := q.pw.reports)
    && pipe.pw.reports <= q.pw.reports
    && (pipe.pw.cb ==> Truthful(q.pw.reports[|pipe.pw.reports|..], |taken|, pipe.pw.total, false))
    && (!pipe.pw.cb ==> q.pw.reports == pipe.pw.reports)
  }

  lemma PutIsTracked(pipe: Pipe, mid: Pipe, taken: Bytes, c: Chunk)
    requires !pipe.pw.finalSent && PutsTracked(pipe, mid, taken)
    ensures PutsTracked(pipe, Put(mid, c), taken + Taken(c))
  {
    var n := |Taken(c)|;
    if pipe.pw.cb && n > 0 {
      ToldMore(mid.pw.reports[|pipe.pw.reports|..], |taken|, pipe.pw.total, n);
      TailOfSum(mid.pw.reports, [Notice(|taken| + n, pipe.pw.total, false)], |pipe.pw.reports|);
    } else {
      TailOfSum(mid.pw.reports, [], |pipe.pw.reports|);
    }
    assert Put(mid, c).sink == pipe.sink + (taken + Taken(c));
  }

  /** Through any fragmentation the sink gains what was accepted and nothing else, the counter
      counts all of it, done counts this attempt's share, and the reports are truthful. */
  lemma {:induction false} PutsAreTracked(pipe: Pipe, cs: seq<Chunk>)
    requires pipe.pw.done == 0 && !pipe.pw.finalSent
    ensures PutsTracked(pipe, Puts(pipe, cs), AllTaken(cs))
    decreases |cs|
  {
    if |cs| > 0 {
      var before, c := cs[..|cs| - 1], cs[|cs| - 1];
      PutsAreTracked(pipe, before);
      PutIsTracked(pipe, Puts(pipe, before), AllTaken(before), c);
    }
  }

  /** Under a done context a write reaches neither the sink nor the counters, and nothing is told. */
  lemma CancelledWriteIsSilent(pipe: Pipe, p: Bytes, accepted: nat)
    ensures Put(pipe, Chunk(p, true, accepted)) == pipe
  {
    assert pipe.sink + [] == pipe.sink && pipe.pw.reports + [] == pipe.pw.reports;
  }

  /** Finishing completes the story of the attempt: one last, final report. */
  lemma FinishIsTruthful(pw: Writer, from: nat)
    requires from <= |pw.reports| && !pw.finalSent && pw.cb
    requires Truthful(pw.reports[from..], pw.done, pw.total, false)
    ensures var q := FinishWriter(pw);
            && Truthful(q.reports[from..], q.done, q.total, true) && q.done == pw.done
            && FinishWriter(q) == q
  {
    var last := Notice(if 0 <= pw.total && pw.done < pw.total then pw.total else pw.done, pw.total, true);
    ToldLast(pw.reports[from..], pw.done, pw.total);
    TailOfSum(pw.reports, [last], from);
  }

  class Sink {
    var contents: Bytes

    constructor ()
      ensures contents == []
    {
      contents := [];
    }

    /** How much is accepted is the environment's choice. */
    method Write(p: Bytes, accepted: nat) returns (n: nat)
      requires accepted <= |p|
      modifies this
      ensures n == accepted && contents == old(contents) + p[..n]
    {
      n := accepted;
      contents := contents + p[..n];
    }
  }

  class CountingWriter {
    const w: Sink
    var n: int

    constructor (w: Sink)
      ensures this.w == w && n == 0
    {
      this.w, n := w, 0;
    }

    method Write(p: Bytes, accepted: nat) returns (k: nat)
      requires accepted <= |p|
      modifies this, w
      ensures k == accepted && n == old(n) + k && w.contents == old(w.contents) + p[..k]
    {
      k := w.Write(p, accepted);
      n := n + k;
    }
  }

  class ProgressWriter {
    const w: CountingWriter
    const total: int
    const onProgress: bool
    var done: int
    var finalSent: bool
    var reports: seq<Notice>

    constructor (w: CountingWriter, total: int, onProgress: bool)
      ensures this.w == w && View() == Writer(total, onProgress, 0, false, [])
    {
      this.w, this.total, this.onProgress := w, total, onProgress;
      done, finalSent, reports := 0, false, [];
    }

    ghost function View(): Writer
      reads this
    {
      Writer(total, onProgress, done, finalSent, reports)
    }

    ghost function Stack(): Pipe
      reads this, w, w.w
    {
      Pipe(View(), w.n, w.w.contents)
    }

    method ResetForAttempt()
      modifies this
      ensures View() == ResetWriter(old(View()))
    {
      done := 0;
      finalSent := false;
    }

    method Write(c: Chunk) returns (n: nat, failed: bool)
      requires c.accepted <= |c.p|
      modifies this, w, w.w
      ensures Stack() == Put(old(Stack()), c) && n == |Taken(c)|
      ensures c.ctxDone ==> failed && n == 0 && Stack() == old(Stack())
    {
      if c.ctxDone {
        return 0, true;
      }
      n := w.Write(c.p, c.accepted);
      failed := n < |c.p|;
      if n > 0 {
        done := done + n;
        var told;
        told, finalSent := EmitProgress(onProgress, done, total, false, finalSent);
        reports := reports + told;
      }
    }

    method FinishReport()
      modifies this
      ensures View() == FinishWriter(old(View()))
    {
      var told;
      told, finalSent := EmitProgress(onProgress, done, total, true, finalSent);
      reports := reports + told;
    }
  }
}
