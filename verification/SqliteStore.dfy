/** The metadata tables of internal/store/sqlite/sqlite.go with the keys and counters its schema
    gives them, and the cache of internal/index/index.go over them.

    `Tables` and its functions are the SQL statements' effect on values; `Store` keeps the tables
    as the service does, and its methods are those functions.  Rows stand in insertion order, which
    is the order of their ids: AUTOINCREMENT never hands out an id again. */
module SqliteStore {
  import opened Options

  datatype FolderRow = FolderRow(id: nat, account: int, channel: int, name: string, created: int)

  datatype FileRow = FileRow(
    id: nat, folder: int, message: int, name: string, size: int, mime: string, manifest: int, created: int)

  datatype Tables = Tables(folders: seq<FolderRow>, files: seq<FileRow>, nextFolder: nat, nextFile: nat)

  const EMPTY := Tables([], [], 1, 1)

  predicate FoldersValid(rows: seq<FolderRow>, next: nat) {
    && (forall i, j | 0 <= i < j < |rows| :: rows[i].id < rows[j].id)
    && (forall i | 0 <= i < |rows| :: 1 <= rows[i].id < next)
    && (forall i, j | 0 <= i < j < |rows| :: (rows[i].account, rows[i].channel) != (rows[j].account, rows[j].channel))
  }

  predicate FilesValid(rows: seq<FileRow>, next: nat) {
    && (forall i, j | 0 <= i < j < |rows| :: rows[i].id < rows[j].id)
    && (forall i | 0 <= i < |rows| :: 1 <= rows[i].id < next)
    && (forall i, j | 0 <= i < j < |rows| :: (rows[i].folder, rows[i].message) != (rows[j].folder, rows[j].message))
  }

  predicate Valid(t: Tables) {
    FoldersValid(t.folders, t.nextFolder) && FilesValid(t.files, t.nextFile) && t.nextFolder >= 1 && t.nextFile >= 1
  }

  // ----- the keyed maps the tables stand for

  function FolderMap(rows: seq<FolderRow>): map<(int, int), FolderRow> {
    if |rows| == 0 then map[]
    else
      var r := rows[|rows| - 1];
      FolderMap(rows[..|rows| - 1])[(r.account, r.channel) := r]
  }

  function FileMap(rows: seq<FileRow>): map<(int, int), FileRow> {
    if |rows| == 0 then map[]
    else
      var r := rows[|rows| - 1];
      FileMap(rows[..|rows| - 1])[(r.folder, r.message) := r]
  }

  // ----- statements

  /** The position of the row with the given key, or the length of the table. */
  function FolderAt(rows: seq<FolderRow>, account: int, channel: int, from: nat := 0): (i: nat)
    requires from <= |rows|
    ensures from <= i <= |rows|
    ensures i < |rows| ==> rows[i].account == account && rows[i].channel == channel
    ensures forall k | from <= k < i :: (rows[k].account, rows[k].channel) != (account, channel)
    decreases |rows| - from
  {
    if from == |rows| || (rows[from].account == account && rows[from].channel == channel) then from
    else FolderAt(rows, account, channel, from + 1)
  }

  function FileAt(rows: seq<FileRow>, folder: int, message: int, from: nat := 0): (i: nat)
    requires from <= |rows|
    ensures from <= i <= |rows|
    ensures i < |rows| ==> rows[i].folder == folder && rows[i].message == message
    ensures forall k | from <= k < i :: (rows[k].folder, rows[k].message) != (folder, message)
    decreases |rows| - from
  {
    if from == |rows| || (rows[from].folder == folder && rows[from].message == message) then from
    else FileAt(rows, folder, message, from + 1)
  }

  /** INSERT ... ON CONFLICT(tg_account_id, channel_id) DO UPDATE SET name */
  function PutFolder(t: Tables, account: int, channel: int, name: string, now: int): (r: (Tables, FolderRow)) {
    var i := FolderAt(t.folders, account, channel);
    if i < |t.folders| then
      var row := t.folders[i].(name := name);
      (t.(folders := t.folders[i := row]), row)
    else
      var row := FolderRow(t.nextFolder, account, channel, name, now);
      (t.(folders := t.folders + [row], nextFolder := t.nextFolder + 1), row)
  }

  /** INSERT ... ON CONFLICT(folder_id, message_id) DO UPDATE SET name, size, mime, chunk_manifest_id;
      the id and creation time of f are not looked at. */
  function PutFile(t: Tables, f: FileRow, now: int): (r: (Tables, FileRow)) {
    var i := FileAt(t.files, f.folder, f.message);
    if i < |t.files| then
      var row := f.(id := t.files[i].id, created := t.files[i].created);
      (t.(files := t.files[i := row]), row)
    else
      var row := f.(id := t.nextFile, created := now);
      (t.(files := t.files + [row], nextFile := t.nextFile + 1), row)
  }

  function FileWithId(rows: seq<FileRow>, id: nat, from: nat := 0): (i: nat)
    requires from <= |rows|
    ensures from <= i <= |rows|
    ensures i < |rows| ==> rows[i].id == id
    ensures forall k | from <= k < i :: rows[k].id != id
    decreases |rows| - from
  {
    if from == |rows| || rows[from].id == id then from else FileWithId(rows, id, from + 1)
  }

  function FolderWithId(rows: seq<FolderRow>, id: nat, from: nat := 0): (i: nat)
    requires from <= |rows|
    ensures from <= i <= |rows|
    ensures i < |rows| ==> rows[i].id == id
    ensures forall k | from <= k < i :: rows[k].id != id
    decreases |rows| - from
  {
    if from == |rows| || rows[from].id == id then from else FolderWithId(rows, id, from + 1)
  }

  /** SELECT ... WHERE id = ? */
  function FileById(rows: seq<FileRow>, id: nat): Option<FileRow> {
    var i := FileWithId(rows, id);
    if i < |rows| then Some(rows[i]) else None
  }

  function FolderById(rows: seq<FolderRow>, id: nat): Option<FolderRow> {
    var i := FolderWithId(rows, id);
    if i < |rows| then Some(rows[i]) else None
  }

  /** DELETE FROM files WHERE id = ?, with whether a row was affected. */
  function DeleteById(t: Tables, id: nat): (Tables, bool) {
    var i := FileWithId(t.files, id);
    if i < |t.files| then (t.(files := t.files[..i] + t.files[i + 1..]), true) else (t, false)
  }

  /** SELECT ... WHERE folder_id = ? ORDER BY id */
  function FilesIn(rows: seq<FileRow>, folder: int): seq<FileRow> {
    if |rows| == 0 then []
    else
      var r := rows[|rows| - 1];
      FilesIn(rows[..|rows| - 1], folder) + (if r.folder == folder then [r] else [])
  }

  function FoldersOf(rows: seq<FolderRow>, account: int): seq<FolderRow> {
    if |rows| == 0 then []
    else
      var r := rows[|rows| - 1];
      FoldersOf(rows[..|rows| - 1], account) + (if r.account == account then [r] else [])
  }

  // ----- the tables are keyed maps

  lemma FileFrontValid(rows: seq<FileRow>, next: nat)
    requires FilesValid(rows, next) && |rows| > 0
    ensures FilesValid(rows[..|rows| - 1], next)
  {
    var front := rows[..|rows| - 1];
    assert forall i | 0 <= i < |front| :: front[i] == rows[i];
  }

  /** The map has a row of the table under every key it has, and every key of the table. */
  lemma {:induction false} FileMapCovers(rows: seq<FileRow>)
    ensures forall k | k in FileMap(rows) ::
              FileMap(rows)[k] in rows && k == (FileMap(rows)[k].folder, FileMap(rows)[k].message)
    ensures forall r | r in rows :: (r.folder, r.message) in FileMap(rows)
    decreases |rows|
  {
    if |rows| > 0 {
      var n := |rows| - 1;
      FileMapCovers(rows[..n]);
      assert forall r :: r in rows <==> r in rows[..n] || r == rows[n];
    }
  }

  /** Looking a key up in the table or in the map is the same. */
  lemma FileMapLookup(rows: seq<FileRow>, folder: int, message: int, next: nat)
    requires FilesValid(rows, next)
    ensures var i := FileAt(rows, folder, message);
            && ((folder, message) in FileMap(rows) <==> i < |rows|)
            && (i < |rows| ==> FileMap(rows)[(folder, message)] == rows[i])
  {
    var i := FileAt(rows, folder, message);
    FileMapCovers(rows);
    if i < |rows| {
      assert rows[i] in rows;
    }
    if (folder, message) in FileMap(rows) {
      var j :| 0 <= j < |rows| && rows[j] == FileMap(rows)[(folder, message)];
    }
  }

  lemma FileAtIsUnique(rows: seq<FileRow>, i: nat, next: nat)
    requires FilesValid(rows, next) && i < |rows|
    ensures FileAt(rows, rows[i].folder, rows[i].message) == i
  {
  }

  /** The map holds exactly the table's rows, each under its key. */
  lemma FileMapHolds(rows: seq<FileRow>, next: nat)
    requires FilesValid(rows, next)
    ensures forall k | k in FileMap(rows) ::
              FileMap(rows)[k] in rows && k == (FileMap(rows)[k].folder, FileMap(rows)[k].message)
    ensures forall r | r in rows :: (r.folder, r.message) in FileMap(rows) && FileMap(rows)[(r.folder, r.message)] == r
  {
    forall k | k in FileMap(rows)
      ensures FileMap(rows)[k] in rows && k == (FileMap(rows)[k].folder, FileMap(rows)[k].message)
    {
      FileMapLookup(rows, k.0, k.1, next);
    }
    forall r | r in rows
      ensures (r.folder, r.message) in FileMap(rows) && FileMap(rows)[(r.folder, r.message)] == r
    {
      var i :| 0 <= i < |rows| && rows[i] == r;
      FileAtIsUnique(rows, i, next);
      FileMapLookup(rows, r.folder, r.message, next);
    }
  }

  lemma FolderFrontValid(rows: seq<FolderRow>, next: nat)
    requires FoldersValid(rows, next) && |rows| > 0
    ensures FoldersValid(rows[..|rows| - 1], next)
  {
    var front := rows[..|rows| - 1];
    assert forall i | 0 <= i < |front| :: front[i] == rows[i];
  }

  /** The map has a row of the table under every key it has, and every key of the table. */
  lemma {:induction false} FolderMapCovers(rows: seq<FolderRow>)
    ensures forall k | k in FolderMap(rows) ::
              FolderMap(rows)[k] in rows && k == (FolderMap(rows)[k].account, FolderMap(rows)[k].channel)
    ensures forall r | r in rows :: (r.account, r.channel) in FolderMap(rows)
    decreases |rows|
  {
    if |rows| > 0 {
      var n := |rows| - 1;
      FolderMapCovers(rows[..n]);
      assert forall r :: r in rows <==> r in rows[..n] || r == rows[n];
    }
  }

  /** Looking a key up in the table or in the map is the same. */
  lemma FolderMapLookup(rows: seq<FolderRow>, account: int, channel: int, next: nat)
    requires FoldersValid(rows, next)
    ensures var i := FolderAt(rows, account, channel);
            && ((account, channel) in FolderMap(rows) <==> i < |rows|)
            && (i < |rows| ==> FolderMap(rows)[(account, channel)] == rows[i])
  {
    var i := FolderAt(rows, account, channel);
    FolderMapCovers(rows);
    if i < |rows| {
      assert rows[i] in rows;
    }
    if (account, channel) in FolderMap(rows) {
      var j :| 0 <= j < |rows| && rows[j] == FolderMap(rows)[(account, channel)];
    }
  }

  lemma FolderAtIsUnique(rows: seq<FolderRow>, i: nat, next: nat)
    requires FoldersValid(rows, next) && i < |rows|
    ensures FolderAt(rows, rows[i].account, rows[i].channel) == i
  {
  }

  /** The map holds exactly the table's rows, each under its key. */
  lemma FolderMapHolds(rows: seq<FolderRow>, next: nat)
    requires FoldersValid(rows, next)
    ensures forall k | k in FolderMap(rows) ::
              FolderMap(rows)[k] in rows && k == (FolderMap(rows)[k].account, FolderMap(rows)[k].channel)
    ensures forall r | r in rows ::
              (r.account, r.channel) in FolderMap(rows) && FolderMap(rows)[(r.account, r.channel)] == r
  {
    forall k | k in FolderMap(rows)
      ensures FolderMap(rows)[k] in rows && k == (FolderMap(rows)[k].account, FolderMap(rows)[k].channel)
    {
      FolderMapLookup(rows, k.0, k.1, next);
    }
    forall r | r in rows
      ensures (r.account, r.channel) in FolderMap(rows) && FolderMap(rows)[(r.account, r.channel)] == r
    {
      var i :| 0 <= i < |rows| && rows[i] == r;
      FolderAtIsUnique(rows, i, next);
      FolderMapLookup(rows, r.account, r.channel, next);
    }
  }

  lemma UpdatesCommute<K, V>(m: map<K, V>, k: K, v: V, j: K, u: V)
    requires j != k
    ensures m[k := v][j := u] == m[j := u][k := v]
  {
  }

  lemma FileUpdateValid(rows: seq<FileRow>, i: nat, row: FileRow, next: nat)
    requires FilesValid(rows, next) && i < |rows| && row.id == rows[i].id
    requires (row.folder, row.message) == (rows[i].folder, rows[i].message)
    ensures FilesValid(rows[i := row], next)
  {
  }

  lemma {:induction false} FileMapUpdate(rows: seq<FileRow>, i: nat, row: FileRow, next: nat)
    requires FilesValid(rows, next) && i < |rows| && row.id == rows[i].id
    requires (row.folder, row.message) == (rows[i].folder, rows[i].message)
    ensures FileMap(rows[i := row]) == FileMap(rows)[(row.folder, row.message) := row]
    decreases |rows|
  {
    var n := |rows| - 1;
    var k, last := (row.folder, row.message), (rows[n].folder, rows[n].message);
    if i < n {
      FileFrontValid(rows, next);
      FileMapUpdate(rows[..n], i, row, next);
      assert rows[i := row][..n] == rows[..n][i := row];
      assert last != k;
      UpdatesCommute(FileMap(rows[..n]), k, row, last, rows[n]);
    } else {
      assert rows[i := row][..n] == rows[..n];
    }
  }

  lemma FileMapAppend(rows: seq<FileRow>, row: FileRow, next: nat)
    requires FilesValid(rows, next) && 1 <= row.id == next && FileAt(rows, row.folder, row.message) == |rows|
    ensures FilesValid(rows + [row], next + 1)
    ensures FileMap(rows + [row]) == FileMap(rows)[(row.folder, row.message) := row]
  {
    var out := rows + [row];
    assert out[..|rows|] == rows && out[|rows|] == row;
    forall i, j | 0 <= i < j < |out|
      ensures out[i].id < out[j].id && (out[i].folder, out[i].message) != (out[j].folder, out[j].message)
    {
      assert out[i] == rows[i];
      if j < |rows| {
        assert out[j] == rows[j];
      }
    }
  }

  lemma FolderUpdateValid(rows: seq<FolderRow>, i: nat, row: FolderRow, next: nat)
    requires FoldersValid(rows, next) && i < |rows| && row.id == rows[i].id
    requires (row.account, row.channel) == (rows[i].account, rows[i].channel)
    ensures FoldersValid(rows[i := row], next)
  {
  }

  lemma {:induction false} FolderMapUpdate(rows: seq<FolderRow>, i: nat, row: FolderRow, next: nat)
    requires FoldersValid(rows, next) && i < |rows| && row.id == rows[i].id
    requires (row.account, row.channel) == (rows[i].account, rows[i].channel)
    ensures FolderMap(rows[i := row]) == FolderMap(rows)[(row.account, row.channel) := row]
    decreases |rows|
  {
    var n := |rows| - 1;
    var k, last := (row.account, row.channel), (rows[n].account, rows[n].channel);
    if i < n {
      FolderFrontValid(rows, next);
      FolderMapUpdate(rows[..n], i, row, next);
      assert rows[i := row][..n] == rows[..n][i := row];
      assert last != k;
      UpdatesCommute(FolderMap(rows[..n]), k, row, last, rows[n]);
    } else {
      assert rows[i := row][..n] == rows[..n];
    }
  }

  lemma FolderMapAppend(rows: seq<FolderRow>, row: FolderRow, next: nat)
    requires FoldersValid(rows, next) && 1 <= row.id == next && FolderAt(rows, row.account, row.channel) == |rows|
    ensures FoldersValid(rows + [row], next + 1)
    ensures FolderMap(rows + [row]) == FolderMap(rows)[(row.account, row.channel) := row]
  {
    var out := rows + [row];
    assert out[..|rows|] == rows && out[|rows|] == row;
    forall i, j | 0 <= i < j < |out|
      ensures out[i].id < out[j].id && (out[i].account, out[i].channel) != (out[j].account, out[j].channel)
    {
      assert out[i] == rows[i];
      if j < |rows| {
        assert out[j] == rows[j];
      }
    }
  }

  lemma RemoveKeepsValid(rows: seq<FileRow>, i: nat, next: nat)
    requires FilesValid(rows, next) && i < |rows|
    ensures FilesValid(rows[..i] + rows[i + 1..], next)
  {
    var out := rows[..i] + rows[i + 1..];
    assert forall j | 0 <= j < |out| :: out[j] == rows[if j < i then j else j + 1];
  }

  lemma {:induction false} FileMapRemove(rows: seq<FileRow>, i: nat, next: nat)
    requires FilesValid(rows, next) && i < |rows|
    ensures FileMap(rows[..i] + rows[i + 1..]) == FileMap(rows) - {(rows[i].folder, rows[i].message)}
    decreases |rows|
  {
    var n := |rows| - 1;
    var front := rows[..n];
    if i < n {
      FileFrontValid(rows, next);
      FileMapRemove(front, i, next);
      RemoveBehind(rows, i);
      RemoveThenUpdate(FileMap(front), (rows[i].folder, rows[i].message), (rows[n].folder, rows[n].message), rows[n]);
    } else {
      assert rows[..i] + rows[i + 1..] == front;
      LastKeyIsNew(rows, next);
      UpdateThenRemove(FileMap(front), (rows[n].folder, rows[n].message), rows[n]);
    }
  }

  lemma RemoveBehind(rows: seq<FileRow>, i: nat)
    requires i < |rows| - 1
    ensures var n := |rows| - 1;
            FileMap(rows[..i] + rows[i + 1..])
            == FileMap(rows[..n][..i] + rows[..n][i + 1..])[(rows[n].folder, rows[n].message) := rows[n]]
  {
    var n := |rows| - 1;
    var out := rows[..i] + rows[i + 1..];
    var front := rows[..n][..i] + rows[..n][i + 1..];
    assert forall j | 0 <= j < n - 1 :: out[..n - 1][j] == front[j];
    assert out[..n - 1] == front && out[n - 1] == rows[n];
  }

  lemma LastKeyIsNew(rows: seq<FileRow>, next: nat)
    requires FilesValid(rows, next) && |rows| > 0
    ensures var n := |rows| - 1; (rows[n].folder, rows[n].message) !in FileMap(rows[..n])
  {
    var n := |rows| - 1;
    FileMapLookup(rows[..n], rows[n].folder, rows[n].message, next);
  }

  lemma RemoveThenUpdate<K, V>(m: map<K, V>, k: K, j: K, v: V)
    requires j != k
    ensures (m - {k})[j := v] == m[j := v] - {k}
  {
  }

  lemma UpdateThenRemove<K, V>(m: map<K, V>, k: K, v: V)
    requires k !in m
    ensures m[k := v] - {k} == m
  {
  }

  lemma UpsertFileUpdates(t: Tables, f: FileRow, now: int)
    requires Valid(t) && FileAt(t.files, f.folder, f.message) < |t.files|
    ensures var (u, row) := PutFile(t, f, now);
            var k := (f.folder, f.message);
            var m := FileMap(t.files);
            && Valid(u) && u == t.(files := u.files, nextFile := u.nextFile)
            && FileMap(u.files) == m[k := row]
            && row == f.(id := row.id, created := row.created)
            && (if k in m then row.id == m[k].id && row.created == m[k].created && u.nextFile == t.nextFile
                else row.id == t.nextFile && row.created == now && u.nextFile == t.nextFile + 1)
  {
    var i := FileAt(t.files, f.folder, f.message);
    FileMapLookup(t.files, f.folder, f.message, t.nextFile);
    FileUpdateValid(t.files, i, PutFile(t, f, now).1, t.nextFile);
    FileMapUpdate(t.files, i, PutFile(t, f, now).1, t.nextFile);
  }

  lemma UpsertFileInserts(t: Tables, f: FileRow, now: int)
    requires Valid(t) && FileAt(t.files, f.folder, f.message) == |t.files|
    ensures var (u, row) := PutFile(t, f, now);
            var k := (f.folder, f.message);
            var m := FileMap(t.files);
            && Valid(u) && u == t.(files := u.files, nextFile := u.nextFile)
            && FileMap(u.files) == m[k := row]
            && row == f.(id := row.id, created := row.created)
            && (if k in m then row.id == m[k].id && row.created == m[k].created && u.nextFile == t.nextFile
                else row.id == t.nextFile && row.created == now && u.nextFile == t.nextFile + 1)
  {
    FileMapLookup(t.files, f.folder, f.message, t.nextFile);
    FileMapAppend(t.files, PutFile(t, f, now).1, t.nextFile);
  }

  /** Upserting a file is an update of the keyed map: a row that was there keeps its id and its
      creation time, a new one gets an id never used before, and no other row changes. */
  lemma UpsertFileRefines(t: Tables, f: FileRow, now: int)
    requires Valid(t)
    ensures var (u, row) := PutFile(t, f, now);
            var k := (f.folder, f.message);
            var m := FileMap(t.files);
            && Valid(u) && u == t.(files := u.files, nextFile := u.nextFile)
            && FileMap(u.files) == m[k := row]
            && row == f.(id := row.id, created := row.created)
            && (if k in m then row.id == m[k].id && row.created == m[k].created && u.nextFile == t.nextFile
                else row.id == t.nextFile && row.created == now && u.nextFile == t.nextFile + 1)
  {
    if FileAt(t.files, f.folder, f.message) < |t.files| {
      UpsertFileUpdates(t, f, now);
    } else {
      UpsertFileInserts(t, f, now);
    }
  }

  lemma UpsertFolderUpdates(t: Tables, account: int, channel: int, name: string, now: int)
    requires Valid(t) && FolderAt(t.folders, account, channel) < |t.folders|
    ensures var (u, row) := PutFolder(t, account, channel, name, now);
            var k := (account, channel);
            var m := FolderMap(t.folders);
            && Valid(u) && u == t.(folders := u.folders, nextFolder := u.nextFolder)
            && FolderMap(u.folders) == m[k := row]
            && row.account == account && row.channel == channel && row.name == name
            && (if k in m then row == m[k].(name := name) && u.nextFolder == t.nextFolder
                else row.id == t.nextFolder && row.created == now && u.nextFolder == t.nextFolder + 1)
  {
    var i := FolderAt(t.folders, account, channel);
    FolderMapLookup(t.folders, account, channel, t.nextFolder);
    FolderUpdateValid(t.folders, i, PutFolder(t, account, channel, name, now).1, t.nextFolder);
    FolderMapUpdate(t.folders, i, PutFolder(t, account, channel, name, now).1, t.nextFolder);
  }

  lemma UpsertFolderInserts(t: Tables, account: int, channel: int, name: string, now: int)
    requires Valid(t) && FolderAt(t.folders, account, channel) == |t.folders|
    ensures var (u, row) := PutFolder(t, account, channel, name, now);
            var k := (account, channel);
            var m := FolderMap(t.folders);
            && Valid(u) && u == t.(folders := u.folders, nextFolder := u.nextFolder)
            && FolderMap(u.folders) == m[k := row]
            && row.account == account && row.channel == channel && row.name == name
            && (if k in m then row == m[k].(name := name) && u.nextFolder == t.nextFolder
                else row.id == t.nextFolder && row.created == now && u.nextFolder == t.nextFolder + 1)
  {
    FolderMapLookup(t.folders, account, channel, t.nextFolder);
    FolderMapAppend(t.folders, PutFolder(t, account, channel, name, now).1, t.nextFolder);
  }

  /** The same for folders, where only the name of an existing row changes. */
  lemma UpsertFolderRefines(t: Tables, account: int, channel: int, name: string, now: int)
    requires Valid(t)
    ensures var (u, row) := PutFolder(t, account, channel, name, now);
            var k := (account, channel);
            var m := FolderMap(t.folders);
            && Valid(u) && u == t.(folders := u.folders, nextFolder := u.nextFolder)
            && FolderMap(u.folders) == m[k := row]
            && row.account == account && row.channel == channel && row.name == name
            && (if k in m then row == m[k].(name := name) && u.nextFolder == t.nextFolder
                else row.id == t.nextFolder && row.created == now && u.nextFolder == t.nextFolder + 1)
  {
    if FolderAt(t.folders, account, channel) < |t.folders| {
      UpsertFolderUpdates(t, account, channel, name, now);
    } else {
      UpsertFolderInserts(t, account, channel, name, now);
    }
  }

  lemma FileWithIdIs(rows: seq<FileRow>, i: nat, next: nat)
    requires FilesValid(rows, next) && i < |rows|
    ensures FileWithId(rows, rows[i].id) == i
  {
  }

  lemma FolderWithIdIs(rows: seq<FolderRow>, i: nat, next: nat)
    requires FoldersValid(rows, next) && i < |rows|
    ensures FolderWithId(rows, rows[i].id) == i
  {
  }

  /** Deleting by primary key takes exactly that row's key out of the map. */
  lemma DeleteRefines(t: Tables, r: FileRow)
    requires Valid(t) && r in t.files
    ensures var (u, hit) := DeleteById(t, r.id);
            && hit && Valid(u) && u == t.(files := u.files)
            && FileMap(u.files) == FileMap(t.files) - {(r.folder, r.message)}
  {
    var i :| 0 <= i < |t.files| && t.files[i] == r;
    FileWithIdIs(t.files, i, t.nextFile);
    FileMapRemove(t.files, i, t.nextFile);
    RemoveKeepsValid(t.files, i, t.nextFile);
  }

  /** An id that no row has is not found, and nothing changes; any other is. */
  lemma DeleteMisses(t: Tables, id: nat)
    ensures var (u, hit) := DeleteById(t, id);
            && (hit <==> exists r :: r in t.files && r.id == id)
            && (!hit ==> u == t)
  {
    var i := FileWithId(t.files, id);
    if i < |t.files| {
      assert t.files[i] in t.files;
    }
  }

  lemma WithoutOne<T>(xs: seq<T>, i: nat)
    requires i < |xs|
    ensures var out := xs[..i] + xs[i + 1..];
            && (forall k | 0 <= k < |xs| && k != i :: xs[k] in out)
            && (forall x | x in out :: exists k :: 0 <= k < |xs| && k != i && xs[k] == x)
  {
    var out := xs[..i] + xs[i + 1..];
    forall k | 0 <= k < |xs| && k != i
      ensures xs[k] in out
    {
      assert out[if k < i then k else k - 1] == xs[k];
    }
    forall x | x in out
      ensures exists k :: 0 <= k < |xs| && k != i && xs[k] == x
    {
      var j :| 0 <= j < |out| && out[j] == x;
      assert xs[if j < i then j else j + 1] == x;
    }
  }

  lemma IdsAreApart(rows: seq<FileRow>, next: nat, i: nat, k: nat)
    requires FilesValid(rows, next) && i < |rows| && k < |rows|
    ensures rows[i].id == rows[k].id <==> i == k
  {
  }

  lemma DeleteKeepsValid(t: Tables, id: nat)
    requires Valid(t)
    ensures Valid(DeleteById(t, id).0)
  {
    var i := FileWithId(t.files, id);
    if i < |t.files| {
      RemoveKeepsValid(t.files, i, t.nextFile);
    }
  }

  lemma RemoveLeaves(rows: seq<FileRow>, i: nat, next: nat)
    requires FilesValid(rows, next) && i < |rows|
    ensures var out := rows[..i] + rows[i + 1..];
            forall r :: r in out <==> r in rows && r.id != rows[i].id
  {
    var out := rows[..i] + rows[i + 1..];
    WithoutOne(rows, i);
    forall r
      ensures r in out <==> r in rows && r.id != rows[i].id
    {
      if r in out {
        var k :| 0 <= k < |rows| && k != i && rows[k] == r;
        IdsAreApart(rows, next, i, k);
      }
      if r in rows && r.id != rows[i].id {
        var k :| 0 <= k < |rows| && rows[k] == r;
      }
    }
  }

  /** Deleting leaves all rows with other ids, and no row with this one. */
  lemma DeleteLeaves(t: Tables, id: nat)
    requires Valid(t)
    ensures forall r :: r in DeleteById(t, id).0.files <==> r in t.files && r.id != id
  {
    var i := FileWithId(t.files, id);
    if i < |t.files| {
      RemoveLeaves(t.files, i, t.nextFile);
    }
  }

  lemma {:induction false} FilesInHolds(rows: seq<FileRow>, folder: int)
    ensures forall r :: r in FilesIn(rows, folder) <==> r in rows && r.folder == folder
    decreases |rows|
  {
    if |rows| > 0 {
      var n := |rows| - 1;
      FilesInHolds(rows[..n], folder);
      forall r
        ensures r in FilesIn(rows, folder) <==> r in rows && r.folder == folder
      {
        assert r in rows <==> r in rows[..n] || r == rows[n];
      }
    }
  }

  lemma {:induction false} FilesInAscends(rows: seq<FileRow>, next: nat, folder: int)
    requires FilesValid(rows, next)
    ensures forall i, j | 0 <= i < j < |FilesIn(rows, folder)| ::
              FilesIn(rows, folder)[i].id < FilesIn(rows, folder)[j].id
    decreases |rows|
  {
    if |rows| > 0 {
      var n := |rows| - 1;
      var before, out := FilesIn(rows[..n], folder), FilesIn(rows, folder);
      FilesInAscends(rows[..n], next, folder);
      FilesInHolds(rows[..n], folder);
      forall i | 0 <= i < |before|
        ensures before[i].id < rows[n].id
      {
        assert before[i] in before;
        var k :| 0 <= k < n && rows[..n][k] == before[i];
        assert rows[k] == before[i];
      }
      forall i, j | 0 <= i < j < |out|
        ensures out[i].id < out[j].id
      {
        assert out[i] == before[i] && out[j] == if j < |before| then before[j] else rows[n];
      }
    }
  }

  /** A listing has the folder's rows, all of them and nothing else, in the order of their ids. */
  lemma ListingIsFolder(rows: seq<FileRow>, next: nat, folder: int)
    requires FilesValid(rows, next)
    ensures var out := FilesIn(rows, folder);
            && (forall r :: r in out <==> r in rows && r.folder == folder)
            && (forall i, j | 0 <= i < j < |out| :: out[i].id < out[j].id)
  {
    FilesInHolds(rows, folder);
    FilesInAscends(rows, next, folder);
  }

  lemma {:induction false} FoldersOfHolds(rows: seq<FolderRow>, account: int)
    ensures forall r :: r in FoldersOf(rows, account) <==> r in rows && r.account == account
    decreases |rows|
  {
    if |rows| > 0 {
      var n := |rows| - 1;
      FoldersOfHolds(rows[..n], account);
      forall r
        ensures r in FoldersOf(rows, account) <==> r in rows && r.account == account
      {
        assert r in rows <==> r in rows[..n] || r == rows[n];
      }
    }
  }

  lemma {:induction false} FoldersOfAscends(rows: seq<FolderRow>, next: nat, account: int)
    requires FoldersValid(rows, next)
    ensures forall i, j | 0 <= i < j < |FoldersOf(rows, account)| ::
              FoldersOf(rows, account)[i].id < FoldersOf(rows, account)[j].id
    decreases |rows|
  {
    if |rows| > 0 {
      var n := |rows| - 1;
      var before, out := FoldersOf(rows[..n], account), FoldersOf(rows, account);
      FoldersOfAscends(rows[..n], next, account);
      FoldersOfHolds(rows[..n], account);
      forall i | 0 <= i < |before|
        ensures before[i].id < rows[n].id
      {
        assert before[i] in before;
        var k :| 0 <= k < n && rows[..n][k] == before[i];
        assert rows[k] == before[i];
      }
      forall i, j | 0 <= i < j < |out|
        ensures out[i].id < out[j].id
      {
        assert out[i] == before[i] && out[j] == if j < |before| then before[j] else rows[n];
      }
    }
  }

  /** A folder listing has the account's rows likewise. */
  lemma FolderListingIsAccount(rows: seq<FolderRow>, next: nat, account: int)
    requires FoldersValid(rows, next)
    ensures var out := FoldersOf(rows, account);
            && (forall r :: r in out <==> r in rows && r.account == account)
            && (forall i, j | 0 <= i < j < |out| :: out[i].id < out[j].id)
  {
    FoldersOfHolds(rows, account);
    FoldersOfAscends(rows, next, account);
  }

  // ----- interleaved statements

  datatype Statement =
    | UpsertsFolder(account: int, channel: int, name: string, now: int)
    | UpsertsFile(f: FileRow, now: int)
    | DeletesFile(id: nat)

  function Execute(t: Tables, s: Statement): Tables {
    match s
    case UpsertsFolder(account, channel, name, now) => PutFolder(t, account, channel, name, now).0
    case UpsertsFile(f, now) => PutFile(t, f, now).0
    case DeletesFile(id) => DeleteById(t, id).0
  }

  function ExecuteAll(t: Tables, ss: seq<Statement>): Tables {
    if |ss| == 0 then t else Execute(ExecuteAll(t, ss[..|ss| - 1]), ss[|ss| - 1])
  }

  lemma StatementKeepsFolders(t: Tables, s: Statement, k: (int, int))
    requires Valid(t)
    ensures var u := Execute(t, s);
            && Valid(u)
            && (k in FolderMap(t.folders) ==>
                  k in FolderMap(u.folders) && FolderMap(u.folders)[k].id == FolderMap(t.folders)[k].id
                  && FolderMap(u.folders)[k].created == FolderMap(t.folders)[k].created)
  {
    match s
    case UpsertsFolder(account, channel, name, now) => UpsertFolderRefines(t, account, channel, name, now);
    case UpsertsFile(f, now) => UpsertFileRefines(t, f, now);
    case DeletesFile(id) =>
      var i := FileWithId(t.files, id);
      if i < |t.files| {
        DeleteRefines(t, t.files[i]);
      }
  }

  /** Whatever statements others run in between, a channel's folder keeps its id and creation time. */
  lemma {:induction false} FoldersAreForever(t: Tables, ss: seq<Statement>, k: (int, int))
    requires Valid(t)
    ensures var u := ExecuteAll(t, ss);
            && Valid(u)
            && (k in FolderMap(t.folders) ==>
                  k in FolderMap(u.folders) && FolderMap(u.folders)[k].id == FolderMap(t.folders)[k].id
                  && FolderMap(u.folders)[k].created == FolderMap(t.folders)[k].created)
    decreases |ss|
  {
    if |ss| > 0 {
      FoldersAreForever(t, ss[..|ss| - 1], k);
      StatementKeepsFolders(ExecuteAll(t, ss[..|ss| - 1]), ss[|ss| - 1], k);
    }
  }

  /** So two resolutions of a folder, however far apart and however interleaved with other
      statements, give the same id exactly when they are for the same channel of one account. */
  lemma IdsIdentifyChannels(t: Tables, ss: seq<Statement>, k: (int, int), j: (int, int))
    requires Valid(t) && k in FolderMap(t.folders) && j in FolderMap(ExecuteAll(t, ss).folders)
    ensures FolderMap(t.folders)[k].id == FolderMap(ExecuteAll(t, ss).folders)[j].id <==> k == j
  {
    var u := ExecuteAll(t, ss);
    FoldersAreForever(t, ss, k);
    FolderMapHolds(u.folders, u.nextFolder);
    var a, b := FolderMap(u.folders)[k], FolderMap(u.folders)[j];
    var x :| 0 <= x < |u.folders| && u.folders[x] == a;
    var y :| 0 <= y < |u.folders| && u.folders[y] == b;
    assert a.id == b.id ==> x == y;
  }

  /** The same row, whatever its name, size and type have become. */
  predicate Descends(r: FileRow, from: FileRow) {
    r.id == from.id && r.folder == from.folder && r.message == from.message && r.created == from.created
  }

  /** Row r has been there since t, or has come with an id t had not handed out. */
  predicate OldOrNew(r: FileRow, t: Tables) {
    r.id >= t.nextFile || exists q :: q in t.files && Descends(r, q)
  }

  lemma StatementKeepsIds(t: Tables, s: Statement)
    requires Valid(t)
    ensures var u := Execute(t, s); u.nextFile >= t.nextFile && forall r | r in u.files :: OldOrNew(r, t)
  {
    var u := Execute(t, s);
    forall r | r in u.files
      ensures OldOrNew(r, t)
    {
      var i :| 0 <= i < |u.files| && u.files[i] == r;
      if r !in t.files && i < |t.files| {
        assert s.UpsertsFile? && i == FileAt(t.files, s.f.folder, s.f.message);
        assert t.files[i] in t.files && Descends(r, t.files[i]);
      } else {
        assert r in t.files ==> Descends(r, r);
      }
    }
  }

  /** Ids are never used again: whatever statements run, a row under an id handed out before is the
      row that got it, with its key and its creation time. */
  lemma {:induction false} IdsAreNeverReused(t: Tables, ss: seq<Statement>)
    requires Valid(t)
    ensures var u := ExecuteAll(t, ss); u.nextFile >= t.nextFile && forall r | r in u.files :: OldOrNew(r, t)
    decreases |ss|
  {
    if |ss| == 0 {
      assert forall r | r in t.files :: Descends(r, r);
    } else {
      var mid := ExecuteAll(t, ss[..|ss| - 1]);
      var u := ExecuteAll(t, ss);
      IdsAreNeverReused(t, ss[..|ss| - 1]);
      FoldersAreForever(t, ss[..|ss| - 1], (0, 0));
      StatementKeepsIds(mid, ss[|ss| - 1]);
      forall r | r in u.files
        ensures OldOrNew(r, t)
      {
        assert OldOrNew(r, mid);
        if r.id < mid.nextFile {
          var q :| q in mid.files && Descends(r, q);
          assert OldOrNew(q, t);
        }
      }
    }
  }

  /** File rows are not for ever: a rename that read row r before a delete removed it brings it back, under
      a new id and creation time, and changes nothing else. */
  lemma LateRenameResurrects(t: Tables, r: FileRow, newName: string, now: int)
    requires Valid(t) && r in t.files
    ensures var late := r.(name := newName);
            var u := Execute(Execute(t, DeletesFile(r.id)), UpsertsFile(late, now));
            && Valid(u)
            && FileMap(u.files) == FileMap(t.files)[(r.folder, r.message) := late.(id := t.nextFile, created := now)]
  {
    var late, k := r.(name := newName), (r.folder, r.message);
    DeleteRefines(t, r);
    var gone := DeleteById(t, r.id).0;
    UpsertFileRefines(gone, late, now);
    PutBack(FileMap(t.files), k, late.(id := t.nextFile, created := now));
  }

  lemma PutBack<K, V>(m: map<K, V>, k: K, v: V)
    ensures (m - {k})[k := v] == m[k := v]
  {
  }

  // ----- an upsert reads back what it wrote

  /** With nobody else at the tables, neither the lookup nor the reload can miss. */
  lemma FileReadsBack(t: Tables, f: FileRow, now: int)
    requires Valid(t)
    ensures var (u, row) := PutFile(t, f, now);
            var i := FileAt(u.files, f.folder, f.message);
            && i < |u.files| && u.files[i].id == row.id && u.files[i] == row
            && (forall r | r in u.files :: r.id == row.id ==> r == row)
  {
    UpsertFileRefines(t, f, now);
    var (u, row) := PutFile(t, f, now);
    FileMapLookup(u.files, f.folder, f.message, u.nextFile);
    var i := FileAt(u.files, f.folder, f.message);
    forall r | r in u.files && r.id == row.id
      ensures r == row
    {
      var j :| 0 <= j < |u.files| && u.files[j] == r;
      assert i == j;
    }
  }

  lemma FolderReadsBack(t: Tables, account: int, channel: int, name: string, now: int)
    requires Valid(t)
    ensures var (u, row) := PutFolder(t, account, channel, name, now);
            var i := FolderAt(u.folders, account, channel);
            && i < |u.folders| && u.folders[i].id == row.id && u.folders[i] == row
            && (forall r | r in u.folders :: r.id == row.id ==> r == row)
  {
    UpsertFolderRefines(t, account, channel, name, now);
    var (u, row) := PutFolder(t, account, channel, name, now);
    FolderMapLookup(u.folders, account, channel, u.nextFolder);
    var i := FolderAt(u.folders, account, channel);
    forall r | r in u.folders && r.id == row.id
      ensures r == row
    {
      var j :| 0 <= j < |u.folders| && u.folders[j] == r;
      assert i == j;
    }
  }

  /** What an upsert of a file answers when others run statements between its three: the insert, the
      lookup of the id under the key, and the reload by id.  None is an error. */
  function UpsertAnswer(t: Tables, f: FileRow, now: int, between: seq<Statement>, later: seq<Statement>)
    : Option<FileRow>
  {
    Reload(ExecuteAll(PutFile(t, f, now).0, between), f.folder, f.message, later)
  }

  /** The lookup of the id under a key, and the reload by id. */
  function Reload(u: Tables, folder: int, message: int, later: seq<Statement>): Option<FileRow> {
    var i := FileAt(u.files, folder, message);
    if i == |u.files| then None else FileById(ExecuteAll(u, later).files, u.files[i].id)
  }

  /** It answers exactly if the key was there at the lookup and still had the same row at the reload,
      and then with that row; it never answers with the row of another key. */
  lemma UpsertAnswersItsKey(t: Tables, f: FileRow, now: int, between: seq<Statement>, later: seq<Statement>)
    requires Valid(t)
    ensures var u := ExecuteAll(PutFile(t, f, now).0, between);
            var v := ExecuteAll(u, later);
            var k, m, n := (f.folder, f.message), FileMap(u.files), FileMap(v.files);
            var r := UpsertAnswer(t, f, now, between, later);
            && (r.Some? <==> k in m && k in n && n[k].id == m[k].id)
            && (r.Some? ==> r.value == n[k])
  {
    var u := ExecuteAll(PutFile(t, f, now).0, between);
    assert Valid(u) by {
      UpsertFileRefines(t, f, now);
      FoldersAreForever(PutFile(t, f, now).0, between, (0, 0));
    }
    ReloadAnswers(u, f.folder, f.message, later);
  }

  lemma ReloadAnswers(u: Tables, folder: int, message: int, later: seq<Statement>)
    requires Valid(u)
    ensures var v := ExecuteAll(u, later);
            var k, m, n := (folder, message), FileMap(u.files), FileMap(v.files);
            var r := Reload(u, folder, message, later);
            && (r.Some? <==> k in m && k in n && n[k].id == m[k].id)
            && (r.Some? ==> r.value == n[k])
  {
    FileMapLookup(u.files, folder, message, u.nextFile);
    var i := FileAt(u.files, folder, message);
    if i < |u.files| {
      ReloadFindsKey(u, i, later);
    }
  }

  lemma ReloadFindsKey(u: Tables, i: nat, later: seq<Statement>)
    requires Valid(u) && i < |u.files|
    ensures var v := ExecuteAll(u, later);
            var a, n := u.files[i], FileMap(v.files);
            var k, r := (a.folder, a.message), FileById(v.files, a.id);
            && (r.Some? <==> k in n && n[k].id == a.id)
            && (r.Some? ==> r.value == n[k])
  {
    var a, v := u.files[i], ExecuteAll(u, later);
    FoldersAreForever(u, later, (0, 0));
    IdsAreNeverReused(u, later);
    FileMapHolds(v.files, v.nextFile);
    var j := FileWithId(v.files, a.id);
    if j < |v.files| {
      assert v.files[j] in v.files && OldOrNew(v.files[j], u);
      var q :| q in u.files && Descends(v.files[j], q);
      var h :| 0 <= h < |u.files| && u.files[h] == q;
      assert h == i;
    }
  }

  /** Folders are never deleted, so creating one always answers, with the folder of its channel. */
  lemma CreateFolderAnswers(t: Tables, account: int, channel: int, name: string, now: int,
                            between: seq<Statement>, later: seq<Statement>)
    requires Valid(t)
    ensures var k := (account, channel);
            var u := ExecuteAll(PutFolder(t, account, channel, name, now).0, between);
            var v := ExecuteAll(u, later);
            && k in FolderMap(u.folders) && k in FolderMap(v.folders)
            && FolderById(v.folders, FolderMap(u.folders)[k].id) == Some(FolderMap(v.folders)[k])
  {
    var k := (account, channel);
    UpsertFolderRefines(t, account, channel, name, now);
    var made := PutFolder(t, account, channel, name, now).0;
    FoldersAreForever(made, between, k);
    var u := ExecuteAll(made, between);
    FoldersAreForever(u, later, k);
    var v := ExecuteAll(u, later);
    FolderMapHolds(v.folders, v.nextFolder);
    var h :| 0 <= h < |v.folders| && v.folders[h] == FolderMap(v.folders)[k];
    FolderWithIdIs(v.folders, h, v.nextFolder);
  }

  // ----- resolving a folder, interleaved

  /** One resolution of a folder: it scans the listing, and if the channel is not there it inserts,
      looks the id up and reloads the row, with statements of others before each of the three. */
  datatype Resolution = Resolution(
    account: int, channel: int, name: string, now: int,
    ahead: seq<Statement>, between: seq<Statement>, later: seq<Statement>)
  {
    function Key(): (int, int) {
      (account, channel)
    }

    /** After the insert. */
    function Inserted(t: Tables): Tables {
      PutFolder(ExecuteAll(t, ahead), account, channel, name, now).0
    }

    /** The tables at its end. */
    function End(t: Tables): Tables {
      if Key() in FolderMap(t.folders) then t else ExecuteAll(ExecuteAll(Inserted(t), between), later)
    }

    function Answer(t: Tables): Option<FolderRow> {
      if Key() in FolderMap(t.folders) then Some(FolderMap(t.folders)[Key()])
      else
        var u := ExecuteAll(Inserted(t), between);
        var i := FolderAt(u.folders, account, channel);
        if i == |u.folders| then None else FolderById(ExecuteAll(u, later).folders, u.folders[i].id)
    }
  }

  /** It always answers, with the row its channel has at its end. */
  lemma ResolutionAnswers(t: Tables, e: Resolution)
    requires Valid(t)
    ensures var u := e.End(t);
            && Valid(u) && e.Key() in FolderMap(u.folders)
            && e.Answer(t) == Some(FolderMap(u.folders)[e.Key()])
  {
    if e.Key() !in FolderMap(t.folders) {
      var s := ExecuteAll(t, e.ahead);
      FoldersAreForever(t, e.ahead, e.Key());
      CreateFolderAnswers(s, e.account, e.channel, e.name, e.now, e.between, e.later);
      UpsertFolderRefines(s, e.account, e.channel, e.name, e.now);
      FoldersAreForever(e.Inserted(t), e.between, e.Key());
      var u := ExecuteAll(e.Inserted(t), e.between);
      FoldersAreForever(u, e.later, e.Key());
      FolderMapLookup(u.folders, e.account, e.channel, u.nextFolder);
    }
  }

  /** Two resolutions that meet in one state of the tables, one after the other or overlapping in
      any way, answer with the same id if and only if they are for the same channel. */
  lemma ResolutionsAgree(t1: Tables, e1: Resolution, rest1: seq<Statement>,
                         t2: Tables, e2: Resolution, rest2: seq<Statement>)
    requires Valid(t1) && Valid(t2) && ExecuteAll(e1.End(t1), rest1) == ExecuteAll(e2.End(t2), rest2)
    ensures e1.Answer(t1).Some? && e2.Answer(t2).Some?
    ensures e1.Answer(t1).value.id == e2.Answer(t2).value.id <==> e1.Key() == e2.Key()
  {
    ResolutionAnswers(t1, e1);
    ResolutionAnswers(t2, e2);
    var u := ExecuteAll(e1.End(t1), rest1);
    FoldersAreForever(e1.End(t1), rest1, e1.Key());
    FoldersAreForever(e2.End(t2), rest2, e2.Key());
    assert ExecuteAll(u, []) == u;
    IdsIdentifyChannels(u, [], e1.Key(), e2.Key());
  }

  // ----- the store as the service keeps it

  class Store {
    var folders: seq<FolderRow>
    var files: seq<FileRow>
    var nextFolder: nat
    var nextFile: nat

    ghost function View(): Tables
      reads this
    {
      Tables(folders, files, nextFolder, nextFile)
    }

    constructor ()
      ensures View() == EMPTY && Valid(View())
    {
      folders, files, nextFolder, nextFile := [], [], 1, 1;
    }

    method ExecFolder(account: int, channel: int, name: string, now: int)
      requires Valid(View())
      modifies this
      ensures View() == PutFolder(old(View()), account, channel, name, now).0 && Valid(View())
    {
      UpsertFolderRefines(View(), account, channel, name, now);
      var i := FolderAt(folders, account, channel);
      if i < |folders| {
        folders := folders[i := folders[i].(name := name)];
      } else {
        folders := folders + [FolderRow(nextFolder, account, channel, name, now)];
        nextFolder := nextFolder + 1;
      }
    }

    method ExecFile(f: FileRow, now: int)
      requires Valid(View())
      modifies this
      ensures View() == PutFile(old(View()), f, now).0 && Valid(View())
    {
      UpsertFileRefines(View(), f, now);
      var i := FileAt(files, f.folder, f.message);
      if i < |files| {
        files := files[i := f.(id := files[i].id, created := files[i].created)];
      } else {
        files := files + [f.(id := nextFile, created := now)];
        nextFile := nextFile + 1;
      }
    }

    method FolderId(account: int, channel: int) returns (id: Option<nat>)
      ensures var i := FolderAt(folders, account, channel);
              id == if i < |folders| then Some(folders[i].id) else None
    {
      var i := FolderAt(folders, account, channel);
      id := if i < |folders| then Some(folders[i].id) else None;
    }

    method FileId(folder: int, message: int) returns (id: Option<nat>)
      ensures var i := FileAt(files, folder, message);
              id == if i < |files| then Some(files[i].id) else None
    {
      var i := FileAt(files, folder, message);
      id := if i < |files| then Some(files[i].id) else None;
    }

    method GetFolder(id: nat) returns (row: Option<FolderRow>)
      ensures row.Some? ==> row.value in folders && row.value.id == id
      ensures row.None? ==> forall r | r in folders :: r.id != id
    {
      row := FolderById(folders, id);
    }

    method GetFile(id: nat) returns (row: Option<FileRow>)
      ensures row.Some? ==> row.value in files && row.value.id == id
      ensures row.None? ==> forall r | r in files :: r.id != id
    {
      row := FileById(files, id);
    }

    /** The upsert, the lookup by key and the reload by id.  With nobody else at the tables neither
        of the last two can miss. */
    method CreateFolder(account: int, channel: int, name: string, now: int) returns (row: FolderRow)
      requires Valid(View())
      modifies this
      ensures (View(), row) == PutFolder(old(View()), account, channel, name, now) && Valid(View())
    {
      FolderReadsBack(View(), account, channel, name, now);
      ExecFolder(account, channel, name, now);
      var id := FolderId(account, channel);
      var found := GetFolder(id.value);
      row := found.value;
    }

    method UpsertFile(f: FileRow, now: int) returns (row: FileRow)
      requires Valid(View())
      modifies this
      ensures (View(), row) == PutFile(old(View()), f, now) && Valid(View())
    {
      FileReadsBack(View(), f, now);
      ExecFile(f, now);
      var id := FileId(f.folder, f.message);
      var found := GetFile(id.value);
      row := found.value;
    }

    method ListFolders(account: int) returns (out: seq<FolderRow>)
      ensures out == FoldersOf(folders, account)
    {
      out := [];
      var i := 0;
      while i < |folders|
        invariant 0 <= i <= |folders| && out == FoldersOf(folders[..i], account)
      {
        assert folders[..i + 1][..i] == folders[..i];
        if folders[i].account == account {
          out := out + [folders[i]];
        }
        i := i + 1;
      }
      assert folders[..i] == folders;
    }

    method ListFiles(folder: int) returns (out: seq<FileRow>)
      ensures out == FilesIn(files, folder)
    {
      out := [];
      var i := 0;
      while i < |files|
        invariant 0 <= i <= |files| && out == FilesIn(files[..i], folder)
      {
        assert files[..i + 1][..i] == files[..i];
        if files[i].folder == folder {
          out := out + [files[i]];
        }
        i := i + 1;
      }
      assert files[..i] == files;
    }

    /** False is ErrNotFound. */
    method DeleteFile(id: nat) returns (found: bool)
      requires Valid(View())
      modifies this
      ensures (View(), found) == DeleteById(old(View()), id) && Valid(View())
      ensures found <==> exists r :: r in old(files) && r.id == id
      ensures forall r :: r in files <==> r in old(files) && r.id != id
    {
      DeleteMisses(View(), id);
      DeleteLeaves(View(), id);
      DeleteKeepsValid(View(), id);
      var i := FileWithId(files, id);
      found := i < |files|;
      if found {
        files := files[..i] + files[i + 1..];
      }
    }
  }

  // ----- the index

  /** Scan the folder's listing for the message, then delete the row found by its primary key. */
  function Prune(t: Tables, folder: int, message: int): Tables {
    var k := (folder, message);
    var m := FileMap(t.files);
    if k in m then DeleteById(t, m[k].id).0 else t
  }

  /** Pruning removes exactly the one keyed row, if there is one, and frames all others. */
  lemma PruneRefines(t: Tables, folder: int, message: int)
    requires Valid(t)
    ensures var u := Prune(t, folder, message);
            Valid(u) && u == t.(files := u.files) && FileMap(u.files) == FileMap(t.files) - {(folder, message)}
  {
    FileMapHolds(t.files, t.nextFile);
    if (folder, message) in FileMap(t.files) {
      DeleteRefines(t, FileMap(t.files)[(folder, message)]);
    }
  }

  class Index {
    const store: Store

    constructor (store: Store)
      ensures this.store == store
    {
      this.store := store;
    }

    method UpsertFolder(account: int, channel: int, name: string, now: int) returns (row: FolderRow)
      requires Valid(store.View())
      modifies store
      ensures (store.View(), row) == PutFolder(old(store.View()), account, channel, name, now) && Valid(store.View())
    {
      row := store.CreateFolder(account, channel, name, now);
    }

    method ListFolders(account: int) returns (out: seq<FolderRow>)
      ensures out == FoldersOf(store.folders, account)
    {
      out := store.ListFolders(account);
    }

    method UpsertFile(f: FileRow, now: int) returns (row: FileRow)
      requires Valid(store.View())
      modifies store
      ensures (store.View(), row) == PutFile(old(store.View()), f, now) && Valid(store.View())
    {
      row := store.UpsertFile(f, now);
    }

    method ListFiles(folder: int) returns (out: seq<FileRow>)
      ensures out == FilesIn(store.files, folder)
    {
      out := store.ListFiles(folder);
    }

    method DeleteFile(folder: int, message: int)
      requires Valid(store.View())
      modifies store
      ensures store.View() == Prune(old(store.View()), folder, message) && Valid(store.View())
    {
      var files := store.ListFiles(folder);
      ghost var t := store.View();
      ListingIsFolder(store.files, store.nextFile, folder);
      FileMapHolds(store.files, store.nextFile);
      assert (folder, message) in FileMap(t.files) ==> FileMap(t.files)[(folder, message)] in files;
      var i := 0;
      while i < |files|
        invariant 0 <= i <= |files| && store.View() == t
        invariant forall k | 0 <= k < i :: files[k].message != message
      {
        if files[i].message == message {
          assert files[i] in files;
          var _ := store.DeleteFile(files[i].id);
          return;
        }
        i := i + 1;
      }
    }
  }
}
