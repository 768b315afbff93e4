/** Uploads on the agent as a transition system.  Every operation on the shared `uploads`
    map, every draw from the id counter and every SFTP call is one atomic step; each SFTP
    session is a task that works through one command at a time, and the steps of different
    tasks, sweeps, disconnects and deletes interleave freely.  Times are in milliseconds. */
module UploadModel {
  import opened Protocol
  import opened RemoteFiles

  const TIMEOUT: nat := 900_000

  /** `file` is what the handle refers to and `handle` the handle itself. */
  datatype FileUpload = FileUpload(
    filename: string, remotePath: string, totalChunks: nat, file: nat, handle: nat, tempPath: string, lastUpdated: int)

  function FinalPath(u: FileUpload): string {
    FilePath(u.remotePath, u.filename)
  }

  type Entries = map<TransferKey, FileUpload>

  /** `issued` counts the handles opened so far, `closed` the handles closed. */
  datatype Table = Table(entries: Entries, nextId: nat, fs: Files, issued: nat, closed: multiset<nat>)

  datatype Chunk = Chunk(index: nat, data: Bytes)

  /** Where a session's task stands in the middle of a command. */
  datatype Task =
    | Opened(cid: Uuid, upload: FileUpload)
    | Checked(key: TransferKey, chunk: Chunk, last: bool)
    | Taken(key: TransferKey, upload: FileUpload, chunk: Chunk)
    | Written(key: TransferKey, upload: FileUpload, chunk: Chunk)

  type Tasks = map<nat, Task>

  datatype State = State(t: Table, tasks: Tasks)

  /** `committed` tells an acknowledgement sent after a successful rename. */
  datatype Output =
    | Nothing
    | Started(key: TransferKey)
    | Acked(key: TransferKey, index: nat, committed: bool)
    | Failed(message: string)

  datatype Event =
    | Open(task: nat, cid: Uuid, dir: string, filename: string, totalChunks: nat, ok: bool)
    | Insert(task: nat, now: int)
    | Begin(task: nat, cid: Uuid, id: nat, chunk: Chunk)
    | WriteMiddle(task: nat, now: int)
    | Take(task: nat)
    | WriteLast(task: nat, failsAfter: Option<nat>)
    | RenameTemp(task: nat, ok: bool)
    | Drop(key: TransferKey)  // by a sweep, a disconnect, a delete or the shutdown
    | RemoveFile(path: string, ok: bool)
    | DrawId  // by a download

  // --- the atomic operations ------------------------------------------------------------------

  function OpenTemp(t: Table, dir: string, filename: string, totalChunks: nat): (Table, FileUpload) {
    var temp := TempPath(FilePath(dir, filename));
    var (fs, file) := t.fs.Create(temp);
    (t.(fs := fs, issued := t.issued + 1), FileUpload(filename, dir, totalChunks, file, t.issued, temp, 0))
  }

  function InsertUpload(t: Table, cid: Uuid, u: FileUpload, now: int): Table {
    t.(entries := t.entries[(cid, t.nextId) := u.(lastUpdated := now)], nextId := t.nextId + 1)
  }

  function AppendMiddle(t: Table, key: TransferKey, data: Bytes, now: int): Table
    requires key in t.entries
  {
    var u := t.entries[key];
    t.(fs := t.fs.Append(u.file, data), entries := t.entries[key := u.(lastUpdated := now)])
  }

  /** A failing write may still have written part of the data. */
  function AppendLast(t: Table, u: FileUpload, data: Bytes, failsAfter: Option<nat>): Table {
    match failsAfter
    case None => t.(fs := t.fs.Append(u.file, data))
    case Some(n) => t.(fs := t.fs.Append(u.file, if n <= |data| then data[..n] else data))
  }

  function Release(t: Table, u: FileUpload): Table {
    t.(closed := t.closed + multiset{u.handle})
  }

  /** The handle is closed only when the upload is dropped, after the rename. */
  function Commit(t: Table, u: FileUpload, ok: bool): (Table, bool) {
    var renamed := t.fs.Rename(u.tempPath, FinalPath(u));
    if ok && renamed.Some? then (Release(t.(fs := renamed.value), u), true)
    else (Release(t, u), false)
  }

  function DropEntry(t: Table, key: TransferKey): Table {
    if key in t.entries then Release(t.(entries := t.entries - {key}), t.entries[key]) else t
  }

  function RemovePath(t: Table, path: string, ok: bool): (Table, bool) {
    var removed := t.fs.Remove(path);
    if ok && removed.Some? then (t.(fs := removed.value), true) else (t, false)
  }

  // --- steps --------------------------------------------------------------------------------------

  /** A step that its task is not ready for changes nothing. */
  function Step(s: State, e: Event): (State, Output) {
    match e
    case Open(task, cid, dir, filename, totalChunks, ok) => DoOpen(s, task, cid, dir, filename, totalChunks, ok)
    case Insert(task, now) => DoInsert(s, task, now)
    case Begin(task, cid, id, chunk) => DoBegin(s, task, (cid, id), chunk)
    case WriteMiddle(task, now) => DoWriteMiddle(s, task, now)
    case Take(task) => DoTake(s, task)
    case WriteLast(task, failsAfter) => DoWriteLast(s, task, failsAfter)
    case RenameTemp(task, ok) => DoRename(s, task, ok)
    case Drop(key) => (s.(t := DropEntry(s.t, key)), Nothing)
    case RemoveFile(path, ok) =>
      var (t, removed) := RemovePath(s.t, path, ok);
      (s.(t := t), if removed then Nothing else Failed("Failed to delete file"))
    case DrawId => (s.(t := s.t.(nextId := s.t.nextId + 1)), Nothing)
  }

  function DoOpen(s: State, task: nat, cid: Uuid, dir: string, filename: string, totalChunks: nat, ok: bool): (State,
                  Output) {
    if task in s.tasks then (s, Nothing)
    else if !ok then (s, Failed("Failed to open file"))
    else
      var (t, u) := OpenTemp(s.t, dir, filename, totalChunks);
      (State(t, s.tasks[task := Opened(cid, u)]), Nothing)
  }

  function DoInsert(s: State, task: nat, now: int): (State, Output) {
    if task !in s.tasks || !s.tasks[task].Opened? then (s, Nothing)
    else
      var cid := s.tasks[task].cid;
      (State(InsertUpload(s.t, cid, s.tasks[task].upload, now), s.tasks - {task}), Started((cid, s.t.nextId)))
  }

  function DoBegin(s: State, task: nat, key: TransferKey, chunk: Chunk): (State, Output) {
    if task in s.tasks then (s, Nothing)
    else if key !in s.t.entries then (s, Failed("Upload ID not found"))
    else (s.(tasks := s.tasks[task := Checked(key, chunk, chunk.index + 1 >= s.t.entries[key].totalChunks)]), Nothing)
  }

  function DoWriteMiddle(s: State, task: nat, now: int): (State, Output) {
    if task !in s.tasks || !s.tasks[task].Checked? || s.tasks[task].last then (s, Nothing)
    else
      var c := s.tasks[task];
      if c.key !in s.t.entries then (s.(tasks := s.tasks - {task}), Failed("Upload ID not found"))
      else (State(AppendMiddle(s.t, c.key, c.chunk.data, now), s.tasks - {task}), Acked(c.key, c.chunk.index, false))
  }

  function DoTake(s: State, task: nat): (State, Output) {
    if task !in s.tasks || !s.tasks[task].Checked? || !s.tasks[task].last then (s, Nothing)
    else
      var c := s.tasks[task];
      if c.key !in s.t.entries then (s.(tasks := s.tasks - {task}), Failed("File upload not found for final chunk"))
      else (State(s.t.(entries := s.t.entries - {c.key}),
                  s.tasks[task := Taken(c.key, s.t.entries[c.key], c.chunk)]), Nothing)
  }

  function DoWriteLast(s: State, task: nat, failsAfter: Option<nat>): (State, Output) {
    if task !in s.tasks || !s.tasks[task].Taken? then (s, Nothing)
    else
      var c := s.tasks[task];
      var t := AppendLast(s.t, c.upload, c.chunk.data, failsAfter);
      if failsAfter.Some? then (State(Release(t, c.upload), s.tasks - {task}), Failed("Failed to write final chunk"))
      else (State(t, s.tasks[task := Written(c.key, c.upload, c.chunk)]), Nothing)
  }

  function DoRename(s: State, task: nat, ok: bool): (State, Output) {
    if task !in s.tasks || !s.tasks[task].Written? then (s, Nothing)
    else
      var c := s.tasks[task];
      var (t, renamed) := Commit(s.t, c.upload, ok);
      (State(t, s.tasks - {task}), if renamed then Acked(c.key, c.chunk.index, true)
       else Failed("Failed to rename file"))
  }

  function Run(s: State, es: seq<Event>): State {
    if es == [] then s else Step(Run(s, es[..|es| - 1]), es[|es| - 1]).0
  }

  /** What the agent said at step `i` of a run. */
  function OutputAt(s: State, es: seq<Event>, i: nat): Output
    requires i < |es|
  {
    Step(Run(s, es[..i]), es[i]).1
  }

  const START: State := State(Table(map[], 1, Files(map[], map[], 0), 0, multiset{}), map[])

  // --- the invariant ---------------------------------------------------------------------------------

  predicate Holds(p: Task, h: nat) {
    !p.Checked? && p.upload.handle == h
  }

  /** The upload has been taken out of the table for its final chunk. */
  predicate InFlight(p: Task, key: TransferKey) {
    (p.Taken? || p.Written?) && p.key == key
  }

  ghost predicate Held(entries: Entries, tasks: Tasks, h: nat) {
    || (exists k :: k in entries && entries[k].handle == h)
    || (exists i :: i in tasks && Holds(tasks[i], h))
  }

  /** Each handle is held in at most one place. */
  ghost predicate HeldOnce(entries: Entries, tasks: Tasks, issued: nat) {
    && (forall k :: k in entries ==> entries[k].handle < issued)
    && (forall i :: i in tasks && !tasks[i].Checked? ==> tasks[i].upload.handle < issued)
    && (forall k, l :: k in entries && l in entries && entries[k].handle == entries[l].handle ==> k == l)
    && (forall i, j :: i in tasks && j in tasks && !tasks[i].Checked? && Holds(tasks[j], tasks[i].upload.handle) ==>
        i == j)
    && (forall k, i :: k in entries && i in tasks ==> !Holds(tasks[i], entries[k].handle))
  }

  /** Every opened handle is held in exactly one place and not closed, or held nowhere and
      closed exactly once. */
  ghost predicate HandlesOk(entries: Entries, tasks: Tasks, issued: nat, closed: multiset<nat>) {
    && HeldOnce(entries, tasks, issued)
    && forall h: nat :: closed[h] == if h < issued && !Held(entries, tasks, h) then 1 else 0
  }

  /** Ids are never reused, and an upload is in the table or in flight, in one task. */
  ghost predicate KeysOk(entries: Entries, tasks: Tasks, nextId: nat) {
    && (forall k :: k in entries ==> k.1 < nextId)
    && (forall i :: i in tasks && !tasks[i].Opened? ==> tasks[i].key.1 < nextId)
    && (forall i :: i in tasks && (tasks[i].Taken? || tasks[i].Written?) ==> tasks[i].key !in entries)
    && (forall i, j :: i in tasks && j in tasks && i != j && (tasks[i].Taken? || tasks[i].Written?) ==>
        !InFlight(tasks[j], tasks[i].key))
  }

  ghost predicate FilesOk(fs: Files, entries: Entries, tasks: Tasks) {
    && fs.Valid()
    && (forall k :: k in entries ==> entries[k].file in fs.data)
    && (forall i :: i in tasks && !tasks[i].Checked? ==> tasks[i].upload.file in fs.data)
  }

  ghost predicate Inv(s: State) {
    && HandlesOk(s.t.entries, s.tasks, s.t.issued, s.t.closed)
    && KeysOk(s.t.entries, s.tasks, s.t.nextId)
    && FilesOk(s.t.fs, s.t.entries, s.tasks)
  }
}
