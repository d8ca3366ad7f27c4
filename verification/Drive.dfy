/** The drive of internal/drive/drive.go: folder and file operations on Telegram, mirrored into the
    metadata index.

    `Apply` is an operation's effect on values, with the outcome of every RPC as part of the
    operation; `DriveService` performs the operations step by step on a server and a store.  An RPC
    that fails here has had no effect, and the store's own statements succeed. */
module Drive {
  import opened Options
  import opened Fileops
  import opened SqliteStore
  import Titles

  const ACCOUNT := 0
  const DEFAULT_MIME := "application/octet-stream"

  /** A folder as the caller names it: a channel and the title it is known by. */
  datatype Folder = Folder(channel: int, title: string)

  /** What the server answers to a document that was sent. */
  datatype Sent = Sent(msg: int, size: int, mime: string, readable: bool)

  datatype Op =
    | CreateFolder(name: string, channel: Option<int>, ttl: bool)
    | RenameFolder(folder: Folder, newName: string, ok: bool)
    | DeleteFolder(folder: Folder, ok: bool)
    | ListFiles(folder: Folder)
    | UploadFile(folder: Folder, name: string, size: int, mime: string, sent: Option<Sent>)
    | RenameFile(folder: Folder, msg: int, newName: string, ok: bool)
    | DeleteFile(folder: Folder, msg: int, ok: bool)
    | MoveFile(src: Folder, msg: int, dst: Folder, n: int, fwd: Rpc<seq<Update>>, del: Rpc<()>)
    | Elsewhere(remote: Remote)   // what other clients of the account do, leaving the server so

  datatype Answer =
    | Done
    | Listed(files: seq<FileRow>)
    | Stored(file: FileRow)
    | NewId(id: int)
    | Failed(id: int)

  datatype State = State(t: Tables, remote: Remote)

  // ----- the index side

  /** The index record of a channel, made on first use. */
  function Ensure(t: Tables, folder: Folder, now: int): (Tables, FolderRow) {
    var m := FolderMap(t.folders);
    if (ACCOUNT, folder.channel) in m then (t, m[(ACCOUNT, folder.channel)])
    else PutFolder(t, ACCOUNT, folder.channel, Titles.Display(folder.title), now)
  }

  function NewFile(folder: int, msg: int, name: string, size: int, mime: string): FileRow {
    FileRow(0, folder, msg, name, size, mime, 0, 0)
  }

  function Reindex(t: Tables, folder: Folder, msg: int, newName: string, now: int): Tables {
    var (u, f) := Ensure(t, folder, now);
    var m := FileMap(u.files);
    if (f.id, msg) in m then PutFile(u, m[(f.id, msg)].(name := newName), now).0 else u
  }

  function ReindexMoved(t: Tables, src: Folder, msg: int, dst: Folder, n: int, now: int): Tables {
    var (u, s) := Ensure(t, src, now);
    var m := FileMap(u.files);
    if (s.id, msg) !in m then u
    else
      var moved := m[(s.id, msg)];
      var (v, d) := Ensure(u, dst, now);
      Prune(PutFile(v, NewFile(d.id, n, moved.name, moved.size, moved.mime), now).0, s.id, msg)
  }

  function Prefer(fromServer: int, fallback: int): int {
    if fromServer > 0 then fromServer else fallback
  }

  function PreferMime(fromServer: string, fallback: string): string {
    if fromServer != "" then fromServer else fallback
  }

  function OrDefault(mime: string): string {
    if mime == "" then DEFAULT_MIME else mime
  }

  predicate Blank(s: string) {
    Titles.Trim(s) == ""
  }

  // ----- operations

  function Apply(s: State, op: Op, now: int): (State, Answer) {
    match op
    case CreateFolder(name, channel, ttl) =>
      if Blank(name) || channel.None? then (s, Failed(0))
      else
        var c := channel.value;
        var remote := s.remote.(channels := s.remote.channels[c := map[]]);
        if !ttl then (s.(remote := remote), Failed(0))
        else (State(Ensure(s.t, Folder(c, Titles.FolderName(name)), now).0, remote), Done)
    case RenameFolder(_, newName, ok) =>
      if Blank(newName) || !ok then (s, Failed(0)) else (s, Done)
    case DeleteFolder(folder, ok) =>
      if !ok then (s, Failed(0))
      else
        (s.(remote := Remote(s.remote.channels - {folder.channel}, s.remote.retired + {folder.channel})), Done)
    case ListFiles(folder) =>
      var (u, f) := Ensure(s.t, folder, now);
      (s.(t := u), Listed(FilesIn(u.files, f.id)))
    case UploadFile(folder, name, size, mime, sent) =>
      if size < 0 || name == "" || sent.None? then (s, Failed(0))
      else
        var a := sent.value;
        var remote := Insert(s.remote, folder.channel, a.msg, Doc(name, "", a.size, a.mime));
        if !a.readable then (s.(remote := remote), Failed(0))
        else
          var (u, f) := Ensure(s.t, folder, now);
          var file := NewFile(f.id, a.msg, name, Prefer(a.size, size), PreferMime(a.mime, OrDefault(mime)));
          var (v, row) := PutFile(u, file, now);
          (State(v, remote), Stored(row))
    case RenameFile(folder, msg, newName, ok) =>
      if msg <= 0 || Blank(newName) || !ok then (s, Failed(0))
      else (State(Reindex(s.t, folder, msg, newName, now), Edit(s.remote, folder.channel, msg, newName)), Done)
    case DeleteFile(folder, msg, ok) =>
      if msg <= 0 || !ok then (s, Failed(0))
      else
        var (u, f) := Ensure(s.t, folder, now);
        (State(Prune(u, f.id, msg), Remove(s.remote, folder.channel, msg)), Done)
    case MoveFile(src, msg, dst, n, fwd, del) =>
      var r := Move(s.remote, src.channel, msg, dst.channel, n, fwd, del);
      var remote := Final(r);
      if !r.err.NoError? then (s.(remote := remote), Failed(r.id))
      else (State(ReindexMoved(s.t, src, msg, dst, r.id, now), remote), NewId(r.id))
    case Elsewhere(remote) => (s.(remote := remote), Done)
  }

  /** Other clients may make and delete channels and send messages. */
  predicate Extends(before: Remote, after: Remote) {
    && (forall c | c in before.channels :: c in after.channels || c in after.retired)
    && (forall c | c in before.channels && c in after.channels ::
          forall m | m in before.channels[c] :: Has(after, c, m) && after.channels[c][m] == before.channels[c][m])
    && (forall c | c in before.retired :: c in after.retired && c !in after.channels)
  }

  /** A move reads its new id off the first concrete message of the reply: that is the copy. */
  predicate EchoesCopy(op: Op) {
    op.MoveFile? && op.fwd.Answers? && FirstMessage(op.fwd.reply).Some? ==> FirstMessage(op.fwd.reply).value == op.n
  }

  /** What the server may answer in a given state. */
  predicate Possible(s: State, op: Op) {
    Answerable(s, op) && EchoesCopy(op)
  }

  predicate Answerable(s: State, op: Op) {
    match op
    case CreateFolder(_, channel, _) =>
      channel.Some? ==> channel.value !in s.remote.channels && channel.value !in s.remote.retired
    case RenameFolder(folder, _, ok) => ok ==> folder.channel in s.remote.channels
    case DeleteFolder(folder, ok) => ok ==> folder.channel in s.remote.channels
    case ListFiles(_) => true
    case UploadFile(folder, _, _, _, sent) =>
      sent.Some? ==> folder.channel in s.remote.channels && !Has(s.remote, folder.channel, sent.value.msg)
    case RenameFile(folder, msg, _, ok) => ok ==> Has(s.remote, folder.channel, msg)
    case DeleteFile(folder, _, ok) => ok ==> folder.channel in s.remote.channels
    case MoveFile(src, msg, dst, n, fwd, del) =>
      && Feasible(s.remote, src.channel, msg, dst.channel, n, fwd)
      && (fwd.Fails? ==> !fwd.applied) && (del.Fails? ==> !del.applied)
    case Elsewhere(remote) => Extends(s.remote, remote)
  }

  // ----- the files a caller is entitled to see

  datatype Meta = Meta(name: string, size: int, mime: string)

  type Tracked = map<(int, int), Meta>

  /** The files uploaded through the drive and not deleted since, renamed and relocated as the
      operations that reported success say; nothing else is tracked. */
  function Track(tr: Tracked, op: Op): Tracked {
    match op
    case UploadFile(folder, name, size, mime, sent) =>
      if size < 0 || name == "" || sent.None? || !sent.value.readable then tr
      else
        var a := sent.value;
        tr[(folder.channel, a.msg) := Meta(name, Prefer(a.size, size), PreferMime(a.mime, OrDefault(mime)))]
    case RenameFile(folder, msg, newName, ok) =>
      var k := (folder.channel, msg);
      if msg <= 0 || Blank(newName) || !ok || k !in tr then tr else tr[k := tr[k].(name := newName)]
    case DeleteFile(folder, msg, ok) =>
      if msg <= 0 || !ok then tr else tr - {(folder.channel, msg)}
    case MoveFile(src, msg, dst, n, fwd, del) =>
      var k := (src.channel, msg);
      if msg <= 0 || !fwd.Answers? || FirstMessage(fwd.reply).None? || !del.Answers? || k !in tr then tr
      else tr[(dst.channel, n) := tr[k]] - {k}
    case _ => tr
  }

  // ----- runs

  datatype Timed = Timed(op: Op, now: int)

  predicate Run(start: State, ops: seq<Timed>)
    decreases |ops|, 0
  {
    || |ops| == 0
    || (Run(start, ops[..|ops| - 1]) && Possible(After(start, ops[..|ops| - 1]), ops[|ops| - 1].op))
  }

  function After(start: State, ops: seq<Timed>): State
    requires Run(start, ops)
    decreases |ops|, 1
  {
    if |ops| == 0 then start
    else Apply(After(start, ops[..|ops| - 1]), ops[|ops| - 1].op, ops[|ops| - 1].now).0
  }

  function TrackedBy(tr: Tracked, ops: seq<Timed>): Tracked {
    if |ops| == 0 then tr else Track(TrackedBy(tr, ops[..|ops| - 1]), ops[|ops| - 1].op)
  }

  /** An account as it is found, whatever is on it, with an index that knows nothing of it. */
  function Found(remote: Remote): State {
    State(EMPTY, remote)
  }

  // ----- what each operation does to the account, and answers

  function Look(t: Remote, c: int, m: int): Option<Doc> {
    if Has(t, c, m) then Some(t.channels[c][m]) else None
  }

  /** Message m of channel c is d now, or gone, and nothing else has changed. */
  ghost predicate OnlyAt(before: Remote, after: Remote, c: int, m: int, d: Option<Doc>) {
    && after.channels.Keys == before.channels.Keys && after.retired == before.retired
    && forall e, k :: Look(after, e, k) == if (e, k) == (c, m) then d else Look(before, e, k)
  }

  /** Channel c is there now, without messages, or gone, and nothing else has changed. */
  ghost predicate OnlyChannel(before: Remote, after: Remote, c: int, there: bool) {
    && after.channels.Keys == (if there then before.channels.Keys + {c} else before.channels.Keys - {c})
    && after.retired == (if there then before.retired else before.retired + {c})
    && forall e, k :: Look(after, e, k) == if e == c then None else Look(before, e, k)
  }

  lemma DeleteFileEffect(s: State, op: Op, now: int)
    requires Answerable(s, op) && op.DeleteFile?
    ensures var (v, answer) := Apply(s, op, now);
            && answer == (if op.msg > 0 && op.ok then Done else Failed(0))
            && (answer.Done? ==> OnlyAt(s.remote, v.remote, op.folder.channel, op.msg, None))
            && (answer.Failed? ==> v == s)
  {
  }

  lemma RenameFileEffect(s: State, op: Op, now: int)
    requires Answerable(s, op) && op.RenameFile?
    ensures var (v, answer) := Apply(s, op, now);
            && answer == (if op.msg > 0 && !Blank(op.newName) && op.ok then Done else Failed(0))
            && (answer.Done? ==>
                  && Has(s.remote, op.folder.channel, op.msg)
                  && OnlyAt(s.remote, v.remote, op.folder.channel, op.msg,
                            Some(s.remote.channels[op.folder.channel][op.msg].(caption := op.newName))))
            && (answer.Failed? ==> v == s)
  {
  }

  /** The arguments are good and the server has taken the document. */
  predicate Uploads(op: Op)
    requires op.UploadFile?
  {
    op.size >= 0 && op.name != "" && op.sent.Some?
  }

  /** A document that was sent is on the server even if its reply could not be read; then the index
      knows nothing of it. */
  lemma UploadFileEffect(s: State, op: Op, now: int)
    requires Answerable(s, op) && op.UploadFile?
    ensures var (v, answer) := Apply(s, op, now);
            && (answer.Stored? <==> Uploads(op) && op.sent.value.readable)
            && (!answer.Stored? ==> answer == Failed(0) && v.t == s.t)
            && (Uploads(op) ==> OnlyAt(s.remote, v.remote, op.folder.channel, op.sent.value.msg,
                                       Some(Doc(op.name, "", op.sent.value.size, op.sent.value.mime))))
            && (!Uploads(op) ==> v.remote == s.remote)
  {
  }

  /** A stored upload answers with the row that is cached for it, which has the server's size and
      type where the server reports them. */
  lemma StoredRow(s: State, op: Op, now: int)
    requires Tidy(s.t) && op.UploadFile? && Uploads(op) && op.sent.value.readable
    ensures var (v, answer) := Apply(s, op, now);
            && answer.Stored? && Cached(v.t, op.folder.channel, op.sent.value.msg) == Some(answer.file)
            && answer.file.name == op.name
            && answer.file.size == (if op.sent.value.size > 0 then op.sent.value.size else op.size)
            && answer.file.mime == (if op.sent.value.mime != "" then op.sent.value.mime
                                    else if op.mime != "" then op.mime else "application/octet-stream")
  {
    var a := op.sent.value;
    var f := Ensure(s.t, op.folder, now).1;
    var row := NewFile(f.id, a.msg, op.name, Prefer(a.size, op.size), PreferMime(a.mime, OrDefault(op.mime)));
    PutIsCached(s.t, op.folder, row, now);
  }

  /** A move answers with the new id as soon as it has read it off the reply, whether or not the
      original could be deleted afterwards. */
  lemma MoveFileAnswer(s: State, op: Op, now: int)
    requires Answerable(s, op) && op.MoveFile?
    ensures var (v, answer) := Apply(s, op, now);
            var named := op.msg > 0 && op.fwd.Answers? && FirstMessage(op.fwd.reply).Some?;
            var id := if named then FirstMessage(op.fwd.reply).value else 0;
            && answer == (if named && op.del.Answers? then NewId(id) else Failed(id))
            && (answer.Failed? ==> v.t == s.t)
  {
    MoveAnswers(s.remote, op.src.channel, op.msg, op.dst.channel, op.n, op.fwd, op.del);
  }

  /** The copy is the one new message of a move, and the original goes only if the move is finished. */
  lemma MoveFileEffect(s: State, op: Op, now: int)
    requires Answerable(s, op) && op.MoveFile?
    ensures var (v, answer) := Apply(s, op, now);
            var src, dst := op.src.channel, op.dst.channel;
            if op.msg > 0 && op.fwd.Answers? then
              var d := s.remote.channels[src][op.msg];
              var copied := Insert(s.remote, dst, op.n, d);
              && OnlyAt(s.remote, copied, dst, op.n, Some(d))
              && if answer.NewId? then OnlyAt(copied, v.remote, src, op.msg, None) else v.remote == copied
            else v.remote == s.remote
  {
    if op.msg > 0 && op.fwd.Answers? {
      var d := s.remote.channels[op.src.channel][op.msg];
      InsertedOnly(s.remote, op.dst.channel, op.n, d);
      RemovedOnly(Insert(s.remote, op.dst.channel, op.n, d), op.src.channel, op.msg);
    }
  }

  lemma InsertedOnly(t: Remote, c: int, m: int, d: Doc)
    requires c in t.channels
    ensures OnlyAt(t, Insert(t, c, m, d), c, m, Some(d))
  {
  }

  lemma RemovedOnly(t: Remote, c: int, m: int)
    requires c in t.channels
    ensures OnlyAt(t, Remove(t, c, m), c, m, None)
  {
  }

  lemma CreateFolderEffect(s: State, op: Op, now: int)
    requires Tidy(s.t) && Answerable(s, op) && op.CreateFolder?
    ensures var (v, answer) := Apply(s, op, now);
            var makes := !Blank(op.name) && op.channel.Some?;
            && answer == (if makes && op.ttl then Done else Failed(0))
            && (makes ==> OnlyChannel(s.remote, v.remote, op.channel.value, true))
            && (!makes ==> v == s) && (answer.Failed? ==> v.t == s.t)
            && (answer.Done? ==> Known(v.t, op.channel.value))
            && (answer.Done? && !Known(s.t, op.channel.value) ==>
                  NameOf(v.t, op.channel.value) == Titles.Display(Titles.FolderName(op.name)))
  {
    if !Blank(op.name) && op.channel.Some? && op.ttl {
      EnsureNames(s.t, Folder(op.channel.value, Titles.FolderName(op.name)), now);
    }
  }

  lemma DeleteFolderEffect(s: State, op: Op, now: int)
    requires Answerable(s, op) && op.DeleteFolder?
    ensures var (v, answer) := Apply(s, op, now);
            && answer == (if op.ok then Done else Failed(0)) && v.t == s.t
            && (answer.Done? ==> OnlyChannel(s.remote, v.remote, op.folder.channel, false))
            && (answer.Failed? ==> v == s)
  {
  }

  predicate Known(t: Tables, c: int) {
    (ACCOUNT, c) in FolderMap(t.folders)
  }

  function NameOf(t: Tables, c: int): string
    requires Known(t, c)
  {
    FolderMap(t.folders)[(ACCOUNT, c)].name
  }

  /** Resolving a folder gives a channel that was not known a row, under its displayed title, and
      touches no other row. */
  lemma EnsureNames(t: Tables, folder: Folder, now: int)
    requires Tidy(t)
    ensures var (u, f) := Ensure(t, folder, now);
            && Known(u, folder.channel) && FolderMap(u.folders)[(ACCOUNT, folder.channel)] == f
            && (!Known(t, folder.channel) ==> f.name == Titles.Display(folder.title) && f.created == now)
            && (forall k | k in FolderMap(t.folders) ::
                  k in FolderMap(u.folders) && FolderMap(u.folders)[k] == FolderMap(t.folders)[k])
  {
    if !Known(t, folder.channel) {
      UpsertFolderRefines(t, ACCOUNT, folder.channel, Titles.Display(folder.title), now);
    }
  }

  // ----- gone is gone

  /** The operation sends, forwards or finds message m in channel c. */
  predicate Sends(op: Op, c: int, m: int) {
    || (op.UploadFile? && op.folder.channel == c && op.sent.Some? && op.sent.value.msg == m)
    || (op.MoveFile? && op.dst.channel == c && op.n == m)
    || (op.Elsewhere? && Has(op.remote, c, m))
  }

  lemma AbsentStays(s: State, op: Op, now: int, c: int, m: int)
    requires Answerable(s, op) && !Has(s.remote, c, m) && !Sends(op, c, m)
    ensures !Has(Apply(s, op, now).0.remote, c, m)
  {
  }

  /** Every prefix of a run is a run, so the states on its way are well defined. */
  lemma {:induction false} RunPrefix(start: State, ops: seq<Timed>, n: nat)
    requires Run(start, ops) && n <= |ops|
    ensures Run(start, ops[..n])
    decreases |ops|
  {
    if n < |ops| {
      RunPrefix(start, ops[..|ops| - 1], n);
      assert ops[..|ops| - 1][..n] == ops[..n];
    } else {
      assert ops[..n] == ops;
    }
  }

  /** A message the drive has deleted is never on the server again, unless it is sent anew. */
  lemma {:induction false} DeletedForGood(start: State, ops: seq<Timed>, i: nat)
    requires Run(start, ops) && i < |ops| && Run(start, ops[..i]) && ops[i].op.DeleteFile?
    requires Apply(After(start, ops[..i]), ops[i].op, ops[i].now).1.Done?
    requires forall j | i < j < |ops| :: !Sends(ops[j].op, ops[i].op.folder.channel, ops[i].op.msg)
    ensures !Has(After(start, ops).remote, ops[i].op.folder.channel, ops[i].op.msg)
    decreases |ops|
  {
    var n := |ops| - 1;
    var before := ops[..n];
    var c, m := ops[i].op.folder.channel, ops[i].op.msg;
    if i == n {
      DeleteFileEffect(After(start, before), ops[n].op, ops[n].now);
      assert Look(After(start, ops).remote, c, m).None?;
    } else {
      assert before[..i] == ops[..i] && before[i] == ops[i];
      assert forall j | i < j < n :: before[j] == ops[j];
      DeletedForGood(start, before, i);
      AbsentStays(After(start, before), ops[n].op, ops[n].now, c, m);
    }
  }

  predicate Retired(s: State, c: int) {
    c in s.remote.retired && c !in s.remote.channels
  }

  /** A channel that was deleted never comes back. */
  lemma {:induction false} RetiredForGood(start: State, ops: seq<Timed>, i: nat, c: int)
    requires Run(start, ops) && i <= |ops| && Run(start, ops[..i]) && Retired(After(start, ops[..i]), c)
    ensures Retired(After(start, ops), c)
    decreases |ops|
  {
    if i == |ops| {
      assert ops[..i] == ops;
    } else {
      var before := ops[..|ops| - 1];
      assert before[..i] == ops[..i];
      RetiredForGood(start, before, i, c);
      RetiredStays(After(start, before), ops[|ops| - 1].op, ops[|ops| - 1].now, c);
    }
  }

  lemma RetiredStays(s: State, op: Op, now: int, c: int)
    requires Answerable(s, op) && Retired(s, c)
    ensures Retired(Apply(s, op, now).0, c)
  {
  }

  // ----- agreement

  /** The row the index serves for a message of a channel, if any. */
  function Cached(t: Tables, c: int, m: int): Option<FileRow> {
    var fm, im := FolderMap(t.folders), FileMap(t.files);
    if (ACCOUNT, c) in fm && (fm[(ACCOUNT, c)].id, m) in im then Some(im[(fm[(ACCOUNT, c)].id, m)]) else None
  }

  function MetaOf(r: FileRow): Meta {
    Meta(r.name, r.size, r.mime)
  }

  /** Name, size and type are those of the document, where the server reports a size and a type. */
  predicate Matches(m: Meta, d: Doc) {
    m.name == ShownName(d) && (d.size > 0 ==> m.size == d.size) && (d.mime != "" ==> m.mime == d.mime)
  }

  /** Folder ids tell channels apart, and every cached file belongs to a folder already made. */
  predicate Tidy(t: Tables) {
    && Valid(t)
    && (forall k | k in FileMap(t.files) :: k.0 < t.nextFolder)
  }

  predicate ServesAt(t: Tables, tr: Tracked, c: int, m: int) {
    if (c, m) in tr then Cached(t, c, m).Some? && MetaOf(Cached(t, c, m).value) == tr[(c, m)]
    else Cached(t, c, m).None?
  }

  /** The index serves exactly the tracked files. */
  ghost predicate Serves(t: Tables, tr: Tracked) {
    forall c, m {:trigger ServesAt(t, tr, c, m)} :: ServesAt(t, tr, c, m)
  }

  /** Every tracked file of a live channel is on the server as the index tells it. */
  predicate OnServer(remote: Remote, tr: Tracked) {
    forall k | k in tr ::
      if k.0 in remote.channels then Has(remote, k.0, k.1) && Matches(tr[k], remote.channels[k.0][k.1])
      else k.0 in remote.retired
  }

  // ----- index steps on the cache

  lemma IdsDiffer(t: Tables, c: int, d: int)
    requires Valid(t) && (ACCOUNT, c) in FolderMap(t.folders) && (ACCOUNT, d) in FolderMap(t.folders)
    requires FolderMap(t.folders)[(ACCOUNT, c)].id == FolderMap(t.folders)[(ACCOUNT, d)].id
    ensures c == d
  {
    assert ExecuteAll(t, []) == t;
    IdsIdentifyChannels(t, [], (ACCOUNT, c), (ACCOUNT, d));
  }

  predicate Resolved(t: Tables, c: int, f: FolderRow) {
    (ACCOUNT, c) in FolderMap(t.folders) && FolderMap(t.folders)[(ACCOUNT, c)] == f
  }

  /** A folder that was not known yet has no files. */
  lemma NewFolderKeeps(t: Tables, channel: int, name: string, now: int)
    requires Tidy(t) && (ACCOUNT, channel) !in FolderMap(t.folders)
    ensures var (u, f) := PutFolder(t, ACCOUNT, channel, name, now);
            && Tidy(u) && Resolved(u, channel, f)
            && u.files == t.files && u.nextFile == t.nextFile
            && (forall c, m :: Cached(u, c, m) == Cached(t, c, m))
            && (forall c, g :: Resolved(t, c, g) ==> Resolved(u, c, g))
  {
    UpsertFolderRefines(t, ACCOUNT, channel, name, now);
  }

  /** Resolving a folder shows no file and hides none. */
  lemma EnsureKeeps(t: Tables, folder: Folder, now: int)
    requires Tidy(t)
    ensures var (u, f) := Ensure(t, folder, now);
            && Tidy(u) && Resolved(u, folder.channel, f)
            && u.files == t.files && u.nextFile == t.nextFile
            && (forall c, m :: Cached(u, c, m) == Cached(t, c, m))
            && (forall c, g :: Resolved(t, c, g) ==> Resolved(u, c, g))
  {
    if (ACCOUNT, folder.channel) !in FolderMap(t.folders) {
      NewFolderKeeps(t, folder.channel, Titles.Display(folder.title), now);
    }
  }

  /** What happens under one key of one folder is not seen anywhere else. */
  lemma OthersUnseen(t: Tables, u: Tables, c: int, f: FolderRow, message: int, d: int, m: int)
    requires Valid(t) && Resolved(t, c, f) && u.folders == t.folders && (d, m) != (c, message)
    requires FileMap(u.files) - {(f.id, message)} == FileMap(t.files) - {(f.id, message)}
    ensures Cached(u, d, m) == Cached(t, d, m)
  {
    if (ACCOUNT, d) in FolderMap(t.folders) {
      var id := FolderMap(t.folders)[(ACCOUNT, d)].id;
      if id == f.id {
        IdsDiffer(t, d, c);
      }
      SameElsewhere(FileMap(u.files), FileMap(t.files), (f.id, message), (id as int, m));
    }
  }

  lemma SameElsewhere<K, V>(a: map<K, V>, b: map<K, V>, k: K, j: K)
    requires a - {k} == b - {k} && j != k
    ensures j in a <==> j in b
    ensures j in a ==> a[j] == b[j]
  {
    assert j in a <==> j in a - {k};
    assert j in b <==> j in b - {k};
    assert j in a ==> a[j] == (a - {k})[j];
  }

  /** Storing a file under a resolved folder shows that file and changes no other. */
  lemma PutShows(t: Tables, c: int, f: FolderRow, row: FileRow, now: int)
    requires Tidy(t) && Resolved(t, c, f) && row.folder == f.id
    ensures var (u, r) := PutFile(t, row, now);
            && Tidy(u) && u.folders == t.folders
            && MetaOf(r) == MetaOf(row) && Cached(u, c, row.message) == Some(r)
            && forall d, m :: (d, m) != (c, row.message) ==> Cached(u, d, m) == Cached(t, d, m)
  {
    UpsertFileRefines(t, row, now);
    FolderIdKnown(t, c);
    var u, k := PutFile(t, row, now).0, (f.id as int, row.message);
    assert FileMap(u.files) - {k} == FileMap(t.files) - {k};
    forall d, m | (d, m) != (c, row.message)
      ensures Cached(u, d, m) == Cached(t, d, m)
    {
      OthersUnseen(t, u, c, f, row.message, d, m);
    }
  }

  lemma FolderIdKnown(t: Tables, c: int)
    requires Valid(t) && (ACCOUNT, c) in FolderMap(t.folders)
    ensures 1 <= FolderMap(t.folders)[(ACCOUNT, c)].id < t.nextFolder
  {
    FolderMapHolds(t.folders, t.nextFolder);
    var r := FolderMap(t.folders)[(ACCOUNT, c)];
    var i :| 0 <= i < |t.folders| && t.folders[i] == r;
  }

  /** Pruning a file of a resolved folder hides that file and changes no other. */
  lemma PruneHides(t: Tables, c: int, f: FolderRow, message: int)
    requires Tidy(t) && Resolved(t, c, f)
    ensures var u := Prune(t, f.id, message);
            && Tidy(u) && u.folders == t.folders
            && Cached(u, c, message).None?
            && forall d, m :: (d, m) != (c, message) ==> Cached(u, d, m) == Cached(t, d, m)
  {
    PruneRefines(t, f.id, message);
    var u, k := Prune(t, f.id, message), (f.id as int, message);
    assert FileMap(u.files) - {k} == FileMap(t.files) - {k};
    forall d, m | (d, m) != (c, message)
      ensures Cached(u, d, m) == Cached(t, d, m)
    {
      OthersUnseen(t, u, c, f, message, d, m);
    }
  }

  // ----- each operation keeps the agreement

  ghost predicate Agrees(s: State, tr: Tracked) {
    Tidy(s.t) && Serves(s.t, tr) && OnServer(s.remote, tr)
  }

  /** One more tracked file. */
  lemma ServesMore(t: Tables, u: Tables, tr: Tracked, c: int, m: int, r: FileRow)
    requires Serves(t, tr) && Cached(u, c, m) == Some(r)
    requires forall d, k :: (d, k) != (c, m) ==> Cached(u, d, k) == Cached(t, d, k)
    ensures Serves(u, tr[(c, m) := MetaOf(r)])
  {
    var more := tr[(c, m) := MetaOf(r)];
    forall d, k {:trigger ServesAt(u, more, d, k)}
      ensures ServesAt(u, more, d, k)
    {
      assert ServesAt(t, tr, d, k);
    }
  }

  lemma ServesLess(t: Tables, u: Tables, tr: Tracked, c: int, m: int)
    requires Serves(t, tr) && Cached(u, c, m).None?
    requires forall d, k :: (d, k) != (c, m) ==> Cached(u, d, k) == Cached(t, d, k)
    ensures Serves(u, tr - {(c, m)})
  {
    var less := tr - {(c, m)};
    forall d, k {:trigger ServesAt(u, less, d, k)}
      ensures ServesAt(u, less, d, k)
    {
      assert ServesAt(t, tr, d, k);
    }
  }

  lemma ServesSame(t: Tables, u: Tables, tr: Tracked)
    requires Serves(t, tr) && forall d, k :: Cached(u, d, k) == Cached(t, d, k)
    ensures Serves(u, tr)
  {
    forall d, k {:trigger ServesAt(u, tr, d, k)}
      ensures ServesAt(u, tr, d, k)
    {
      assert ServesAt(t, tr, d, k);
    }
  }

  lemma PutIsCached(t: Tables, folder: Folder, row: FileRow, now: int)
    requires Tidy(t) && row.folder == Ensure(t, folder, now).1.id
    ensures var (v, r) := PutFile(Ensure(t, folder, now).0, row, now);
            Cached(v, folder.channel, row.message) == Some(r) && MetaOf(r) == MetaOf(row)
  {
    var (u, f) := Ensure(t, folder, now);
    EnsureKeeps(t, folder, now);
    PutShows(u, folder.channel, f, row, now);
  }

  lemma UploadServes(t: Tables, tr: Tracked, folder: Folder, row: FileRow, now: int)
    requires Tidy(t) && Serves(t, tr) && row.folder == Ensure(t, folder, now).1.id
    ensures var v := PutFile(Ensure(t, folder, now).0, row, now).0;
            Tidy(v) && Serves(v, tr[(folder.channel, row.message) := MetaOf(row)])
  {
    var (u, f) := Ensure(t, folder, now);
    EnsureKeeps(t, folder, now);
    ServesSame(t, u, tr);
    PutShows(u, folder.channel, f, row, now);
    var (v, r) := PutFile(u, row, now);
    ServesMore(u, v, tr, folder.channel, row.message, r);
  }

  /** A document sent, under an id no message has. */
  lemma SentOnServer(remote: Remote, tr: Tracked, c: int, m: int, d: Doc)
    requires OnServer(remote, tr) && c in remote.channels && !Has(remote, c, m)
    ensures OnServer(Insert(remote, c, m, d), tr)
  {
  }

  lemma TrackedOnServer(remote: Remote, tr: Tracked, c: int, m: int, meta: Meta)
    requires OnServer(remote, tr) && Has(remote, c, m) && Matches(meta, remote.channels[c][m])
    ensures OnServer(remote, tr[(c, m) := meta])
  {
  }

  lemma UploadAgrees(s: State, tr: Tracked, op: Op, now: int)
    requires Agrees(s, tr) && Answerable(s, op) && op.UploadFile?
    ensures Agrees(Apply(s, op, now).0, Track(tr, op))
  {
    if op.size >= 0 && op.name != "" && op.sent.Some? {
      var a, c := op.sent.value, op.folder.channel;
      var d := Doc(op.name, "", a.size, a.mime);
      SentOnServer(s.remote, tr, c, a.msg, d);
      if a.readable {
        var f := Ensure(s.t, op.folder, now).1;
        var row := NewFile(f.id, a.msg, op.name, Prefer(a.size, op.size), PreferMime(a.mime, OrDefault(op.mime)));
        TrackedOnServer(Insert(s.remote, c, a.msg, d), tr, c, a.msg, MetaOf(row));
        UploadServes(s.t, tr, op.folder, row, now);
      }
    }
  }

  lemma ReindexServes(t: Tables, tr: Tracked, folder: Folder, msg: int, newName: string, now: int)
    requires Tidy(t) && Serves(t, tr)
    ensures var u := Reindex(t, folder, msg, newName, now);
            var k := (folder.channel, msg);
            Tidy(u) && Serves(u, if k in tr then tr[k := tr[k].(name := newName)] else tr)
  {
    var c := folder.channel;
    var (u, f) := Ensure(t, folder, now);
    EnsureKeeps(t, folder, now);
    ServesSame(t, u, tr);
    assert ServesAt(u, tr, c, msg);
    var im := FileMap(u.files);
    if (f.id, msg) in im {
      FileMapHolds(u.files, u.nextFile);
      var row := im[(f.id, msg)].(name := newName);
      PutShows(u, c, f, row, now);
      var (v, r) := PutFile(u, row, now);
      ServesMore(u, v, tr, c, msg, r);
    }
  }

  /** A rename changes the name in the cached row and nothing else of it. */
  lemma ReindexKeepsRow(t: Tables, folder: Folder, msg: int, newName: string, now: int)
    requires Tidy(t) && Cached(t, folder.channel, msg).Some?
    ensures Cached(Reindex(t, folder, msg, newName, now), folder.channel, msg)
            == Some(Cached(t, folder.channel, msg).value.(name := newName))
  {
    var (u, f) := Ensure(t, folder, now);
    EnsureKeeps(t, folder, now);
    FileMapHolds(u.files, u.nextFile);
    var row := FileMap(u.files)[(f.id, msg)].(name := newName);
    UpsertFileRefines(u, row, now);
    PutShows(u, folder.channel, f, row, now);
  }

  /** A renamed file on the server. */
  lemma EditedOnServer(remote: Remote, tr: Tracked, c: int, msg: int, newName: string)
    requires OnServer(remote, tr) && Has(remote, c, msg) && newName != ""
    ensures var k := (c, msg);
            OnServer(Edit(remote, c, msg, newName), if k in tr then tr[k := tr[k].(name := newName)] else tr)
  {
    var r := Edit(remote, c, msg, newName);
    assert r.channels.Keys == remote.channels.Keys;
    forall d, m | Has(remote, d, m) && (d, m) != (c, msg)
      ensures Has(r, d, m) && r.channels[d][m] == remote.channels[d][m]
    {
    }
  }

  lemma RenameAgrees(s: State, tr: Tracked, op: Op, now: int)
    requires Agrees(s, tr) && Answerable(s, op) && op.RenameFile?
    ensures Agrees(Apply(s, op, now).0, Track(tr, op))
  {
    if op.msg > 0 && !Blank(op.newName) && op.ok {
      ReindexServes(s.t, tr, op.folder, op.msg, op.newName, now);
      EditedOnServer(s.remote, tr, op.folder.channel, op.msg, op.newName);
    }
  }

  lemma DeleteAgrees(s: State, tr: Tracked, op: Op, now: int)
    requires Agrees(s, tr) && Answerable(s, op) && op.DeleteFile?
    ensures Agrees(Apply(s, op, now).0, Track(tr, op))
  {
    if op.msg > 0 && op.ok {
      var (u, f) := Ensure(s.t, op.folder, now);
      EnsureKeeps(s.t, op.folder, now);
      ServesSame(s.t, u, tr);
      PruneHides(u, op.folder.channel, f, op.msg);
      ServesLess(u, Prune(u, f.id, op.msg), tr, op.folder.channel, op.msg);
    }
  }

  /** A finished move: the row appears at the destination, then goes from the source. */
  lemma ReindexMovedServes(t: Tables, tr: Tracked, src: Folder, msg: int, dst: Folder, n: int, now: int)
    requires Tidy(t) && Serves(t, tr)
    requires (src.channel, msg) in tr ==> (src.channel, msg) != (dst.channel, n)
    ensures var u := ReindexMoved(t, src, msg, dst, n, now);
            var k := (src.channel, msg);
            && Tidy(u)
            && Serves(u, if k in tr then tr[(dst.channel, n) := tr[k]] - {k} else tr)
  {
    var (u, sf) := Ensure(t, src, now);
    EnsureKeeps(t, src, now);
    ServesSame(t, u, tr);
    assert ServesAt(u, tr, src.channel, msg);
    var im := FileMap(u.files);
    if (sf.id, msg) in im {
      var moved := im[(sf.id, msg)];
      var (v, df) := Ensure(u, dst, now);
      EnsureKeeps(u, dst, now);
      ServesSame(u, v, tr);
      assert Resolved(v, src.channel, sf);
      var row := NewFile(df.id, n, moved.name, moved.size, moved.mime);
      PutShows(v, dst.channel, df, row, now);
      var (x, r) := PutFile(v, row, now);
      ServesMore(v, x, tr, dst.channel, n, r);
      PruneHides(x, src.channel, sf, msg);
      ServesLess(x, Prune(x, sf.id, msg), tr[(dst.channel, n) := MetaOf(r)], src.channel, msg);
    }
  }

  /** The row at the destination has the name, size and type of the one that was moved, and no chunk
      manifest. */
  lemma MovedRow(t: Tables, src: Folder, msg: int, dst: Folder, n: int, now: int)
    requires Tidy(t) && Cached(t, src.channel, msg).Some? && (src.channel, msg) != (dst.channel, n)
    ensures var u := ReindexMoved(t, src, msg, dst, n, now);
            var old_, new_ := Cached(t, src.channel, msg).value, Cached(u, dst.channel, n);
            && new_.Some? && MetaOf(new_.value) == MetaOf(old_) && new_.value.manifest == 0
            && Cached(u, src.channel, msg).None?
  {
    var (u, sf) := Ensure(t, src, now);
    EnsureKeeps(t, src, now);
    var moved := FileMap(u.files)[(sf.id, msg)];
    var (v, df) := Ensure(u, dst, now);
    EnsureKeeps(u, dst, now);
    assert Resolved(v, src.channel, sf);
    var row := NewFile(df.id, n, moved.name, moved.size, moved.mime);
    UpsertFileRefines(v, row, now);
    PutShows(v, dst.channel, df, row, now);
    PruneHides(PutFile(v, row, now).0, src.channel, sf, msg);
  }

  /** A finished move on the server. */
  lemma MovedOnServer(remote: Remote, tr: Tracked, src: int, msg: int, dst: int, n: int)
    requires OnServer(remote, tr) && Has(remote, src, msg) && dst in remote.channels && !Has(remote, dst, n)
    ensures var k := (src, msg);
            OnServer(Remove(Forward(remote, src, msg, dst, n), src, msg),
                     if k in tr then tr[(dst, n) := tr[k]] - {k} else tr)
  {
    var r := Remove(Forward(remote, src, msg, dst, n), src, msg);
    assert r.channels.Keys == remote.channels.Keys;
    assert Has(r, dst, n) && r.channels[dst][n] == remote.channels[src][msg];
    forall c, m | (c, m) != (src, msg) && (c, m) != (dst, n) && Has(remote, c, m)
      ensures Has(r, c, m) && r.channels[c][m] == remote.channels[c][m]
    {
    }
  }

  /** A half-finished one. */
  lemma CopiedOnServer(remote: Remote, tr: Tracked, src: int, msg: int, dst: int, n: int)
    requires OnServer(remote, tr) && Has(remote, src, msg) && dst in remote.channels && !Has(remote, dst, n)
    ensures OnServer(Forward(remote, src, msg, dst, n), tr)
  {
  }

  /** A move that reports success, of a tracked file, under an id that is not the copy's. */
  predicate Misreads(tr: Tracked, op: Op) {
    && op.MoveFile? && op.msg > 0 && op.fwd.Answers? && FirstMessage(op.fwd.reply).Some? && op.del.Answers?
    && (op.src.channel, op.msg) in tr && FirstMessage(op.fwd.reply).value != op.n
  }

  lemma MoveAgrees(s: State, tr: Tracked, op: Op, now: int)
    requires Agrees(s, tr) && Answerable(s, op) && op.MoveFile? && !Misreads(tr, op)
    ensures Agrees(Apply(s, op, now).0, Track(tr, op))
  {
    var src, dst := op.src.channel, op.dst.channel;
    var r := Move(s.remote, src, op.msg, dst, op.n, op.fwd, op.del);
    if op.fwd.Answers? {
      CopiedOnServer(s.remote, tr, src, op.msg, dst, op.n);
    }
    if r.err.NoError? {
      MovedOnServer(s.remote, tr, src, op.msg, dst, op.n);
      ReindexMovedServes(s.t, tr, op.src, op.msg, op.dst, r.id, now);
    }
  }

  /** The row goes where the reply says, and nothing appears elsewhere. */
  lemma ReindexMovedElsewhere(t: Tables, src: Folder, msg: int, dst: Folder, id: int, now: int, n: int)
    requires Tidy(t) && id != n && Cached(t, dst.channel, n).None?
    ensures Cached(ReindexMoved(t, src, msg, dst, id, now), dst.channel, n).None?
  {
    var (u, sf) := Ensure(t, src, now);
    EnsureKeeps(t, src, now);
    var im := FileMap(u.files);
    if (sf.id, msg) in im {
      var moved := im[(sf.id, msg)];
      var (v, df) := Ensure(u, dst, now);
      EnsureKeeps(u, dst, now);
      assert Resolved(v, src.channel, sf);
      var row := NewFile(df.id, id, moved.name, moved.size, moved.mime);
      PutShows(v, dst.channel, df, row, now);
      var x := PutFile(v, row, now).0;
      PruneHides(x, src.channel, sf, msg);
      assert Cached(Prune(x, sf.id, msg), dst.channel, n).None?;
    }
  }

  lemma MisreadBreaks(s: State, tr: Tracked, op: Op, now: int)
    requires Agrees(s, tr) && Answerable(s, op) && Misreads(tr, op)
    ensures !Agrees(Apply(s, op, now).0, Track(tr, op))
  {
    var u, c, id := Apply(s, op, now).0, op.dst.channel, FirstMessage(op.fwd.reply).value;
    assert (c, op.n) !in tr;
    assert ServesAt(s.t, tr, c, op.n);
    ReindexMovedElsewhere(s.t, op.src, op.msg, op.dst, id, now, op.n);
    assert (c, op.n) in Track(tr, op);
    assert !ServesAt(u.t, Track(tr, op), c, op.n);
  }

  lemma StaysOrRetires(before: Remote, after: Remote, c: int)
    requires Extends(before, after) && (c in before.channels || c in before.retired)
    ensures c in after.channels ==> c in before.channels
    ensures c in after.channels || c in after.retired
  {
  }

  lemma ElsewhereAgrees(s: State, tr: Tracked, op: Op, now: int)
    requires Agrees(s, tr) && Answerable(s, op) && op.Elsewhere?
    ensures Agrees(Apply(s, op, now).0, Track(tr, op))
  {
    forall k | k in tr
      ensures if k.0 in op.remote.channels
              then Has(op.remote, k.0, k.1) && Matches(tr[k], op.remote.channels[k.0][k.1])
              else k.0 in op.remote.retired
    {
      StaysOrRetires(s.remote, op.remote, k.0);
    }
  }

  lemma StepAgrees(s: State, tr: Tracked, op: Op, now: int)
    requires Agrees(s, tr) && Answerable(s, op) && !Misreads(tr, op)
    ensures Agrees(Apply(s, op, now).0, Track(tr, op))
  {
    match op {
      case CreateFolder(name, channel, ttl) =>
        if !Blank(name) && channel.Some? && ttl {
          EnsureKeeps(s.t, Folder(channel.value, Titles.FolderName(name)), now);
          ServesSame(s.t, Apply(s, op, now).0.t, tr);
        }
      case ListFiles(folder) =>
        EnsureKeeps(s.t, folder, now);
        ServesSame(s.t, Apply(s, op, now).0.t, tr);
      case UploadFile(_, _, _, _, _) => UploadAgrees(s, tr, op, now);
      case RenameFile(_, _, _, _) => RenameAgrees(s, tr, op, now);
      case DeleteFile(_, _, _) => DeleteAgrees(s, tr, op, now);
      case MoveFile(_, _, _, _, _, _) => MoveAgrees(s, tr, op, now);
      case Elsewhere(_) => ElsewhereAgrees(s, tr, op, now);
      case _ =>
    }
  }

  /** One operation keeps the agreement if and only if it does not misread the id of a tracked file
      it has moved. */
  lemma StepAgreesIff(s: State, tr: Tracked, op: Op, now: int)
    requires Agrees(s, tr) && Answerable(s, op)
    ensures Agrees(Apply(s, op, now).0, Track(tr, op)) <==> !Misreads(tr, op)
  {
    if Misreads(tr, op) {
      MisreadBreaks(s, tr, op, now);
    } else {
      StepAgrees(s, tr, op, now);
    }
  }

  /** From any state that agrees with what is tracked, every run keeps the agreement. */
  lemma {:induction false} AgreementLasts(start: State, tr: Tracked, ops: seq<Timed>)
    requires Agrees(start, tr) && Run(start, ops)
    ensures Agrees(After(start, ops), TrackedBy(tr, ops))
    decreases |ops|
  {
    if |ops| > 0 {
      var before, last := ops[..|ops| - 1], ops[|ops| - 1];
      AgreementLasts(start, tr, before);
      StepAgrees(After(start, before), TrackedBy(tr, before), last.op, last.now);
    }
  }

  /** In particular, a run on any account at all, starting with an empty index. */
  lemma AlwaysAgrees(remote: Remote, ops: seq<Timed>)
    requires Run(Found(remote), ops)
    ensures Agrees(After(Found(remote), ops), TrackedBy(map[], ops))
  {
    forall c, m {:trigger ServesAt(EMPTY, map[], c, m)}
      ensures ServesAt(EMPTY, map[], c, m)
    {
    }
    AgreementLasts(Found(remote), map[], ops);
  }

  /** The cache agrees with Telegram over whole runs.  On any account, after any sequence of
      operations with any outcomes, and whatever other clients add, listing any folder gives exactly
      its tracked files, each once and in the order of their ids, and each tracked file of a live
      channel is on the server under its message id with the listed name, size and type. */
  lemma ListingIsTruth(remote: Remote, ops: seq<Timed>, folder: Folder, now: int)
    requires Run(Found(remote), ops)
    ensures var s, tr, c := After(Found(remote), ops), TrackedBy(map[], ops), folder.channel;
            var (s', answer) := Apply(s, ListFiles(folder), now);
            && answer.Listed? && s'.remote == s.remote
            && (forall r | r in answer.files :: (c, r.message) in tr && tr[(c, r.message)] == MetaOf(r))
            && (forall k | k in tr && k.0 == c :: exists r :: r in answer.files && r.message == k.1)
            && (forall i, j | 0 <= i < j < |answer.files| ::
                  answer.files[i].id < answer.files[j].id && answer.files[i].message != answer.files[j].message)
            && (forall k | k in tr && k.0 in s.remote.channels ::
                  Has(s.remote, k.0, k.1) && Matches(tr[k], s.remote.channels[k.0][k.1]))
  {
    AlwaysAgrees(remote, ops);
    var s, tr, c := After(Found(remote), ops), TrackedBy(map[], ops), folder.channel;
    ListingServes(s.t, tr, folder, now);
  }

  lemma ListingServes(t: Tables, tr: Tracked, folder: Folder, now: int)
    requires Tidy(t) && Serves(t, tr)
    ensures var (u, f) := Ensure(t, folder, now);
            var files := FilesIn(u.files, f.id);
            && (forall r | r in files ::
                  (folder.channel, r.message) in tr && tr[(folder.channel, r.message)] == MetaOf(r))
            && (forall k | k in tr && k.0 == folder.channel :: exists r :: r in files && r.message == k.1)
            && (forall i, j | 0 <= i < j < |files| :: files[i].id < files[j].id && files[i].message != files[j].message)
  {
    var c := folder.channel;
    var (u, f) := Ensure(t, folder, now);
    EnsureKeeps(t, folder, now);
    ServesSame(t, u, tr);
    ListingIsFolder(u.files, u.nextFile, f.id);
    FileMapHolds(u.files, u.nextFile);
    var files := FilesIn(u.files, f.id);
    forall r | r in files
      ensures (c, r.message) in tr && tr[(c, r.message)] == MetaOf(r)
    {
      assert Cached(u, c, r.message) == Some(r);
      assert ServesAt(u, tr, c, r.message);
    }
    forall k | k in tr && k.0 == c
      ensures exists r :: r in files && r.message == k.1
    {
      assert ServesAt(u, tr, c, k.1);
      assert Cached(u, c, k.1).value in files;
    }
    forall i, j | 0 <= i < j < |files|
      ensures files[i].message != files[j].message
    {
      assert files[i] in files && files[j] in files;
      assert FileMap(u.files)[(f.id, files[i].message)] == files[i];
    }
  }

  /** A move that fails changes neither the index nor what is tracked.  At worst it leaves a copy at
      the destination, under an id that no tracked file has. */
  lemma FailedMoveLeavesCopy(remote: Remote, ops: seq<Timed>, op: Op, now: int)
    requires Run(Found(remote), ops) && op.MoveFile? && Answerable(After(Found(remote), ops), op)
    requires Apply(After(Found(remote), ops), op, now).1.Failed?
    ensures var s, tr := After(Found(remote), ops), TrackedBy(map[], ops);
            var v := Apply(s, op, now).0;
            && v.t == s.t && Track(tr, op) == tr
            && (v.remote != s.remote ==>
                  && op.fwd.Answers? && (op.dst.channel, op.n) !in tr && Has(s.remote, op.src.channel, op.msg)
                  && v.remote == Insert(s.remote, op.dst.channel, op.n, s.remote.channels[op.src.channel][op.msg]))
  {
    AlwaysAgrees(remote, ops);
  }

  // ----- the drive as the service runs it

  class DriveService {
    const idx: Index
    const server: Server

    constructor (idx: Index, server: Server)
      ensures this.idx == idx && this.server == server
    {
      this.idx, this.server := idx, server;
    }

    ghost function View(): State
      reads idx.store, server
    {
      State(idx.store.View(), server.remote)
    }

    method EnsureFolder(folder: Folder, now: int) returns (f: FolderRow)
      requires Valid(idx.store.View())
      modifies idx.store
      ensures (idx.store.View(), f) == Ensure(old(idx.store.View()), folder, now) && Valid(idx.store.View())
    {
      var existing := idx.ListFolders(ACCOUNT);
      FolderListingIsAccount(idx.store.folders, idx.store.nextFolder, ACCOUNT);
      FolderMapHolds(idx.store.folders, idx.store.nextFolder);
      ghost var m, k := FolderMap(idx.store.folders), (ACCOUNT, folder.channel);
      assert k in m ==> m[k] in existing;
      var i := 0;
      while i < |existing|
        invariant 0 <= i <= |existing| && forall k | 0 <= k < i :: existing[k].channel != folder.channel
      {
        if existing[i].channel == folder.channel {
          assert existing[i] in existing;
          return existing[i];
        }
        i := i + 1;
      }
      f := idx.UpsertFolder(ACCOUNT, folder.channel, Titles.Display(folder.title), now);
    }

    /** The row of a message in a folder's listing, found by scanning it. */
    method Scan(folder: int, msg: int) returns (row: Option<FileRow>)
      requires Valid(idx.store.View())
      ensures var m := FileMap(idx.store.files);
              row == if (folder, msg) in m then Some(m[(folder, msg)]) else None
    {
      var files := idx.ListFiles(folder);
      ListingIsFolder(idx.store.files, idx.store.nextFile, folder);
      FileMapHolds(idx.store.files, idx.store.nextFile);
      ghost var m := FileMap(idx.store.files);
      assert (folder, msg) in m ==> m[(folder, msg)] in files;
      var i := 0;
      while i < |files|
        invariant 0 <= i <= |files| && forall k | 0 <= k < i :: files[k].message != msg
      {
        if files[i].message == msg {
          assert files[i] in files;
          return Some(files[i]);
        }
        i := i + 1;
      }
      row := None;
    }

    method ReindexRenamedFile(folder: Folder, msg: int, newName: string, now: int)
      requires Valid(idx.store.View())
      modifies idx.store
      ensures idx.store.View() == Reindex(old(idx.store.View()), folder, msg, newName, now) && Valid(idx.store.View())
    {
      var f := EnsureFolder(folder, now);
      var found := Scan(f.id, msg);
      if found.Some? {
        var _ := idx.UpsertFile(found.value.(name := newName), now);
      }
    }

    method ReindexMovedFile(src: Folder, msg: int, dst: Folder, n: int, now: int)
      requires Valid(idx.store.View())
      modifies idx.store
      ensures idx.store.View() == ReindexMoved(old(idx.store.View()), src, msg, dst, n, now) && Valid(idx.store.View())
    {
      var srcFolder := EnsureFolder(src, now);
      var found := Scan(srcFolder.id, msg);
      if found.None? {
        return;
      }
      var moved := found.value;
      var dstFolder := EnsureFolder(dst, now);
      var _ := idx.UpsertFile(NewFile(dstFolder.id, n, moved.name, moved.size, moved.mime), now);
      idx.DeleteFile(srcFolder.id, msg);
    }

    method PerformCreateFolder(name: string, channel: Option<int>, ttl: bool, now: int) returns (answer: Answer)
      requires Valid(View().t)
      modifies idx.store, server
      ensures (View(), answer) == Apply(old(View()), CreateFolder(name, channel, ttl), now) && Valid(View().t)
    {
      if Blank(name) || channel.None? {
        return Failed(0);
      }
      server.CreateChannel(channel.value);
      if !ttl {
        return Failed(0);
      }
      var _ := EnsureFolder(Folder(channel.value, Titles.FolderName(name)), now);
      answer := Done;
    }

    method PerformDeleteFolder(folder: Folder, ok: bool, now: int) returns (answer: Answer)
      requires Valid(View().t)
      modifies server
      ensures (View(), answer) == Apply(old(View()), DeleteFolder(folder, ok), now)
    {
      if !ok {
        return Failed(0);
      }
      server.DeleteChannel(folder.channel);
      answer := Done;
    }

    method PerformListFiles(folder: Folder, now: int) returns (answer: Answer)
      requires Valid(View().t)
      modifies idx.store
      ensures (View(), answer) == Apply(old(View()), ListFiles(folder), now) && Valid(View().t)
    {
      var f := EnsureFolder(folder, now);
      var files := idx.ListFiles(f.id);
      answer := Listed(files);
    }

    method PerformUploadFile(folder: Folder, name: string, size: int, mime: string, sent: Option<Sent>, now: int)
      returns (answer: Answer)
      requires Valid(View().t)
      modifies idx.store, server
      ensures (View(), answer) == Apply(old(View()), UploadFile(folder, name, size, mime, sent), now) && Valid(View().t)
    {
      if size < 0 || name == "" || sent.None? {
        return Failed(0);
      }
      var a := sent.value;
      server.SendMedia(folder.channel, a.msg, Doc(name, "", a.size, a.mime));
      if !a.readable {
        return Failed(0);
      }
      var f := EnsureFolder(folder, now);
      var row := idx.UpsertFile(
        NewFile(f.id, a.msg, name, Prefer(a.size, size), PreferMime(a.mime, OrDefault(mime))), now);
      answer := Stored(row);
    }

    method PerformRenameFile(folder: Folder, msg: int, newName: string, ok: bool, now: int) returns (answer: Answer)
      requires Valid(View().t)
      modifies idx.store, server
      ensures (View(), answer) == Apply(old(View()), RenameFile(folder, msg, newName, ok), now) && Valid(View().t)
    {
      if msg <= 0 || Blank(newName) || !ok {
        return Failed(0);
      }
      server.EditMessage(folder.channel, msg, newName);
      ReindexRenamedFile(folder, msg, newName, now);
      answer := Done;
    }

    method PerformDeleteFile(folder: Folder, msg: int, ok: bool, now: int) returns (answer: Answer)
      requires Valid(View().t)
      modifies idx.store, server
      ensures (View(), answer) == Apply(old(View()), DeleteFile(folder, msg, ok), now) && Valid(View().t)
    {
      if msg <= 0 {
        return Failed(0);
      }
      var r := server.DeleteMessages(folder.channel, msg, if ok then Answers(()) else Fails(false));
      if r.Fails? {
        return Failed(0);
      }
      var f := EnsureFolder(folder, now);
      idx.DeleteFile(f.id, msg);
      answer := Done;
    }

    method PerformMoveFile(src: Folder, msg: int, dst: Folder, n: int, fwd: Rpc<seq<Update>>, del: Rpc<()>, now: int)
      returns (answer: Answer)
      requires Valid(View().t)
      modifies idx.store, server
      ensures (View(), answer) == Apply(old(View()), MoveFile(src, msg, dst, n, fwd, del), now) && Valid(View().t)
    {
      var id, err, _ := server.MoveMessage(src.channel, msg, dst.channel, n, fwd, del);
      if err != NoError {
        return Failed(id);
      }
      ReindexMovedFile(src, msg, dst, id, now);
      answer := NewId(id);
    }
  }
}
