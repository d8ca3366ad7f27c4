/** What the file operations see of Telegram, and the move of internal/telegram/fileops/fileops.go:
    a forward followed by a delete, with no transaction around them. */
module Fileops {
  import opened Options

  datatype Doc = Doc(filename: string, caption: string, size: int, mime: string)

  /** The name a client shows: the caption once there is one. */
  function ShownName(d: Doc): string {
    if d.caption != "" then d.caption else d.filename
  }

  /** The live channels with their messages, and the ids of channels that were deleted. */
  datatype Remote = Remote(channels: map<int, map<int, Doc>>, retired: set<int>)

  predicate Has(t: Remote, c: int, m: int) {
    c in t.channels && m in t.channels[c]
  }

  function Insert(t: Remote, c: int, m: int, d: Doc): Remote {
    if c in t.channels then t.(channels := t.channels[c := t.channels[c][m := d]]) else t
  }

  function Edit(t: Remote, c: int, m: int, caption: string): Remote {
    if Has(t, c, m) then Insert(t, c, m, t.channels[c][m].(caption := caption)) else t
  }

  function Remove(t: Remote, c: int, m: int): Remote {
    if c in t.channels then t.(channels := t.channels[c := t.channels[c] - {m}]) else t
  }

  function Forward(t: Remote, src: int, m: int, dst: int, n: int): Remote {
    if Has(t, src, m) then Insert(t, dst, n, t.channels[src][m]) else t
  }

  /** An RPC fails, with or without having had its effect, or answers. */
  datatype Rpc<T> = Fails(applied: bool) | Answers(reply: T)
  {
    predicate Applied() { Answers? || applied }
  }

  /** One entry of an Updates reply, as far as it carries a message. */
  datatype Update = NoMessage | EmptyMessage | Message(id: int)

  /** The id of the first concrete message, if there is one. */
  function FirstMessage(us: seq<Update>): (r: Option<int>)
    ensures r.Some? <==> exists i :: 0 <= i < |us| && us[i].Message?
    ensures r.Some? ==>
              exists i :: 0 <= i < |us| && us[i] == Message(r.value) && forall k | 0 <= k < i :: !us[k].Message?
  {
    if |us| == 0 then None
    else if us[0].Message? then Some(us[0].id)
    else
      var r := FirstMessage(us[1..]);
      assert r.Some? ==> exists i :: 0 <= i < |us[1..]| && us[1..][i] == us[i + 1] && us[i + 1] == Message(r.value)
                                     && forall k | 0 <= k < i :: !us[1..][k].Message? && us[1..][k] == us[k + 1];
      r
  }

  method NewMessageID(us: seq<Update>) returns (id: Option<int>)
    ensures id == FirstMessage(us)
  {
    var i := 0;
    while i < |us|
      invariant 0 <= i <= |us| && FirstMessage(us) == FirstMessage(us[i..])
    {
      match us[i] {
        case Message(n) => return Some(n);
        case _ =>
      }
      i := i + 1;
    }
    id := None;
  }

  datatype MoveError = NoError | BadMessageId | ForwardFailed | NewIdUnreadable | DeleteFailed

  /** trace lists the remote states a move passes through, the one before it first. */
  datatype Moved = Moved(trace: seq<Remote>, id: int, err: MoveError)

  /** n is the id the server gives the copy. */
  function Move(t: Remote, src: int, m: int, dst: int, n: int, fwd: Rpc<seq<Update>>, del: Rpc<()>): Moved {
    if m <= 0 then Moved([t], 0, BadMessageId)
    else
      var t1 := if fwd.Applied() then Forward(t, src, m, dst, n) else t;
      if fwd.Fails? then Moved([t, t1], 0, ForwardFailed)
      else if FirstMessage(fwd.reply).None? then Moved([t, t1], 0, NewIdUnreadable)
      else
        var id := FirstMessage(fwd.reply).value;
        var t2 := if del.Applied() then Remove(t1, src, m) else t1;
        Moved([t, t1, t2], id, if del.Fails? then DeleteFailed else NoError)
  }

  function Final(r: Moved): Remote
    requires |r.trace| > 0
  {
    r.trace[|r.trace| - 1]
  }

  /** The server side, kept as the client meets it: every call may change it. */
  class Server {
    var remote: Remote

    constructor (remote: Remote)
      ensures this.remote == remote
    {
      this.remote := remote;
    }

    method ForwardMessages(src: int, m: int, dst: int, n: int, fwd: Rpc<seq<Update>>) returns (r: Rpc<seq<Update>>)
      modifies this
      ensures r == fwd && remote == if fwd.Applied() then Forward(old(remote), src, m, dst, n) else old(remote)
    {
      r := fwd;
      if fwd.Applied() {
        remote := Forward(remote, src, m, dst, n);
      }
    }

    method DeleteMessages(c: int, m: int, del: Rpc<()>) returns (r: Rpc<()>)
      modifies this
      ensures r == del && remote == if del.Applied() then Remove(old(remote), c, m) else old(remote)
    {
      r := del;
      if del.Applied() {
        remote := Remove(remote, c, m);
      }
    }

    method SendMedia(c: int, m: int, d: Doc)
      modifies this
      ensures remote == Insert(old(remote), c, m, d)
    {
      remote := Insert(remote, c, m, d);
    }

    method EditMessage(c: int, m: int, caption: string)
      modifies this
      ensures remote == Edit(old(remote), c, m, caption)
    {
      remote := Edit(remote, c, m, caption);
    }

    method CreateChannel(c: int)
      modifies this
      ensures remote == old(remote).(channels := old(remote).channels[c := map[]])
    {
      remote := remote.(channels := remote.channels[c := map[]]);
    }

    method DeleteChannel(c: int)
      modifies this
      ensures remote == Remote(old(remote).channels - {c}, old(remote).retired + {c})
    {
      remote := Remote(remote.channels - {c}, remote.retired + {c});
    }

    method MoveMessage(src: int, m: int, dst: int, n: int, fwd: Rpc<seq<Update>>, del: Rpc<()>)
      returns (id: int, err: MoveError, ghost trace: seq<Remote>)
      modifies this
      ensures Moved(trace, id, err) == Move(old(remote), src, m, dst, n, fwd, del)
      ensures remote == Final(Moved(trace, id, err))
    {
      trace := [remote];
      if m <= 0 {
        return 0, BadMessageId, trace;
      }
      var upd := ForwardMessages(src, m, dst, n, fwd);
      trace := trace + [remote];
      if upd.Fails? {
        return 0, ForwardFailed, trace;
      }
      var newID := NewMessageID(upd.reply);
      if newID.None? {
        return 0, NewIdUnreadable, trace;
      }
      var deleted := DeleteMessages(src, m, del);
      trace := trace + [remote];
      if deleted.Fails? {
        return newID.value, DeleteFailed, trace;
      }
      return newID.value, NoError, trace;
    }
  }

  /** What the server may do: forward an existing message to a live channel, under a fresh id. */
  predicate Feasible(t: Remote, src: int, m: int, dst: int, n: int, fwd: Rpc<seq<Update>>) {
    fwd.Applied() ==> Has(t, src, m) && dst in t.channels && n > 0 && !Has(t, dst, n)
  }

  /** The same document is in src under its old id or in dst under the new one. */
  predicate Safe(t: Remote, src: int, m: int, dst: int, n: int, d: Doc) {
    (Has(t, src, m) && t.channels[src][m] == d) || (Has(t, dst, n) && t.channels[dst][n] == d)
  }

  /** A move never loses the file.  Whatever fails, with or without effect, every state on the way
      has the document in src or in dst and leaves every other message alone; the original only
      goes after a confirmed forward; nil means the document is in dst and no longer in src. */
  lemma MoveNeverLoses(t: Remote, src: int, m: int, dst: int, n: int, fwd: Rpc<seq<Update>>, del: Rpc<()>)
    requires m > 0 && Has(t, src, m) && Feasible(t, src, m, dst, n, fwd)
    ensures var r := Move(t, src, m, dst, n, fwd, del);
            && (forall i | 0 <= i < |r.trace| ::
                  && Safe(r.trace[i], src, m, dst, n, t.channels[src][m])
                  && (Has(r.trace[i], src, m) || fwd.Answers?)
                  && r.trace[i].channels.Keys == t.channels.Keys && r.trace[i].retired == t.retired
                  && forall c, k | c in t.channels && (c, k) != (src, m) && (c, k) != (dst, n) ::
                       && (Has(r.trace[i], c, k) <==> Has(t, c, k))
                       && (Has(t, c, k) ==> r.trace[i].channels[c][k] == t.channels[c][k]))
            && (r.err.NoError? ==>
                  !Has(Final(r), src, m) && Has(Final(r), dst, n) && Final(r).channels[dst][n] == t.channels[src][m])
            && (r.id != 0 ==> fwd.Answers?)
            && (r.err.NoError? <==> fwd.Answers? && FirstMessage(fwd.reply).Some? && del.Answers?)
            && (r.err.DeleteFailed? ==> Has(Final(r), dst, n))
  {
    var d := t.channels[src][m];
    var r := Move(t, src, m, dst, n, fwd, del);
    var t1 := if fwd.Applied() then Forward(t, src, m, dst, n) else t;
    assert Safe(t, src, m, dst, n, d) && Safe(t1, src, m, dst, n, d);
    assert Safe(Final(r), src, m, dst, n, d);
  }

  /** What a move answers, case by case: the reply to the forward decides the id, and the first call
      that goes wrong decides the error. */
  lemma MoveAnswers(t: Remote, src: int, m: int, dst: int, n: int, fwd: Rpc<seq<Update>>, del: Rpc<()>)
    ensures var r := Move(t, src, m, dst, n, fwd, del);
            && (m <= 0 ==> r.err == BadMessageId && r.id == 0 && Final(r) == t)
            && (m > 0 && fwd.Fails? ==> r.err == ForwardFailed && r.id == 0)
            && (m > 0 && fwd.Answers? && (forall i | 0 <= i < |fwd.reply| :: !fwd.reply[i].Message?) ==>
                  r.err == NewIdUnreadable && r.id == 0)
            && (forall i | m > 0 && fwd.Answers? && 0 <= i < |fwd.reply| && fwd.reply[i].Message?
                           && (forall k | 0 <= k < i :: !fwd.reply[k].Message?) ::
                  r.err == (if del.Fails? then DeleteFailed else NoError) && r.id == fwd.reply[i].id)
  {
    if m > 0 && fwd.Answers? && FirstMessage(fwd.reply).Some? {
      var us := fwd.reply;
      var j :| 0 <= j < |us| && us[j] == Message(FirstMessage(us).value) && forall k | 0 <= k < j :: !us[k].Message?;
      forall i | 0 <= i < |us| && us[i].Message? && forall k | 0 <= k < i :: !us[k].Message?
        ensures i == j
      {
      }
    }
  }

  /** A move that stops half-way leaves the document in both places, or where it was: only a delete
      whose failure had its effect all the same takes the original away. */
  lemma HalfFinished(t: Remote, src: int, m: int, dst: int, n: int, fwd: Rpc<seq<Update>>, del: Rpc<()>)
    requires m > 0 && Has(t, src, m) && Feasible(t, src, m, dst, n, fwd)
    ensures var r := Move(t, src, m, dst, n, fwd, del);
            var last := Final(r);
            && (r.err.ForwardFailed? ==> Has(last, src, m) && (Has(last, dst, n) <==> fwd.applied || Has(t, dst, n)))
            && (r.err.NewIdUnreadable? ==> Has(last, src, m) && Has(last, dst, n))
            && (r.err.DeleteFailed? ==> Has(last, dst, n) && (Has(last, src, m) <==> !del.applied))
  {
  }

  /** The id that comes back with a finished or half-finished move is the copy's exactly when the
      first concrete message of the reply is the copy. */
  lemma ReturnedIdIsCopy(t: Remote, src: int, m: int, dst: int, n: int, fwd: Rpc<seq<Update>>, del: Rpc<()>)
    requires m > 0
    ensures var r := Move(t, src, m, dst, n, fwd, del);
            r.err.NoError? || r.err.DeleteFailed? ==>
              (r.id == n <==> exists i :: 0 <= i < |fwd.reply| && fwd.reply[i] == Message(n)
                                          && forall k | 0 <= k < i :: !fwd.reply[k].Message?)
  {
    if fwd.Answers? && FirstMessage(fwd.reply).Some? {
      var us, r := fwd.reply, FirstMessage(fwd.reply);
      var i :| 0 <= i < |us| && us[i] == Message(r.value) && forall k | 0 <= k < i :: !us[k].Message?;
      forall j | 0 <= j < |us| && us[j] == Message(n) && forall k | 0 <= k < j :: !us[k].Message?
        ensures j == i
      {
      }
    }
  }

  // ----- any number of moves

  datatype Step = Step(src: int, m: int, dst: int, n: int, fwd: Rpc<seq<Update>>, del: Rpc<()>)

  function MoveBy(t: Remote, s: Step): Remote {
    Final(Move(t, s.src, s.m, s.dst, s.n, s.fwd, s.del))
  }

  function MoveAll(t: Remote, ss: seq<Step>): Remote
    decreases |ss|
  {
    if |ss| == 0 then t else MoveAll(MoveBy(t, ss[0]), ss[1..])
  }

  predicate FeasibleRun(t: Remote, ss: seq<Step>)
    decreases |ss|
  {
    |ss| == 0
    || (&& Feasible(t, ss[0].src, ss[0].m, ss[0].dst, ss[0].n, ss[0].fwd)
        && FeasibleRun(MoveBy(t, ss[0]), ss[1..]))
  }

  ghost predicate Somewhere(t: Remote, d: Doc) {
    exists c, k :: Has(t, c, k) && t.channels[c][k] == d
  }

  lemma MoveConserves(t: Remote, s: Step, d: Doc)
    requires Feasible(t, s.src, s.m, s.dst, s.n, s.fwd)
    ensures Somewhere(MoveBy(t, s), d) <==> Somewhere(t, d)
  {
    var u := MoveBy(t, s);
    if Somewhere(t, d) {
      var c, k :| Has(t, c, k) && t.channels[c][k] == d;
      if (c, k) == (s.src, s.m) && s.m > 0 {
        MoveNeverLoses(t, s.src, s.m, s.dst, s.n, s.fwd, s.del);
        assert Safe(u, s.src, s.m, s.dst, s.n, d);
      } else {
        assert Has(u, c, k) && u.channels[c][k] == d;
      }
    }
    if Somewhere(u, d) {
      var c, k :| Has(u, c, k) && u.channels[c][k] == d;
      if !(Has(t, c, k) && t.channels[c][k] == d) {
        assert Has(t, s.src, s.m) && t.channels[s.src][s.m] == d;
      }
    }
  }

  /** Moves conserve documents.  After any number of them, with any failures of any effect, exactly
      the documents that were somewhere before are somewhere. */
  lemma {:induction false} MovesConserve(t: Remote, ss: seq<Step>, d: Doc)
    requires FeasibleRun(t, ss)
    ensures Somewhere(MoveAll(t, ss), d) <==> Somewhere(t, d)
    decreases |ss|
  {
    if |ss| > 0 {
      MoveConserves(t, ss[0], d);
      MovesConserve(MoveBy(t, ss[0]), ss[1..], d);
    }
  }
}
