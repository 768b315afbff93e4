/** What an upload leaves on the remote side: the temporary file's content, and the commit
    under the browser's stop-and-wait loop. */
module UploadTheorems {
  import opened Protocol
  import opened Chunks
  import opened RemoteFiles
  import UM = UploadModel
  import opened UploadModel
  import opened UploadInvariants

  // --- one upload, followed by its handle --------------------------------------------------------

  /** An upload's handle, its file, and its two paths. */
  datatype Mine = Mine(handle: nat, file: nat, temp: string, final: string, total: nat)

  predicate Is(u: FileUpload, m: Mine) {
    u.handle == m.handle && u.file == m.file && u.tempPath == m.temp && FinalPath(u) == m.final
      && u.totalChunks == m.total
  }

  /** Another upload, which uses neither the file nor the temporary path. */
  predicate Apart(u: FileUpload, m: Mine) {
    u.handle != m.handle && u.file != m.file && u.tempPath != m.temp && FinalPath(u) != m.temp
  }

  ghost predicate NamesOwn(fs: Files, m: Mine) {
    && m.file in fs.data
    && (m.temp in fs.names ==> fs.names[m.temp] == m.file)
    && (forall p :: p in fs.names && fs.names[p] == m.file ==> p == m.temp)
  }

  /** Nobody else uses the upload's file or temporary path. */
  ghost predicate Own(s: State, m: Mine) {
    && NamesOwn(s.t.fs, m)
    && m.handle < s.t.issued
    && (forall k :: k in s.t.entries ==> Is(s.t.entries[k], m) || Apart(s.t.entries[k], m))
    && (forall i :: i in s.tasks && !s.tasks[i].Checked? ==> Is(s.tasks[i].upload, m) || Apart(s.tasks[i].upload, m))
  }

  /** The event does not start another upload on the temporary path. */
  predicate Respects(e: Event, m: Mine) {
    e.Open? ==> FilePath(e.dir, e.filename) != m.temp && TempPath(FilePath(e.dir, e.filename)) != m.temp
  }

  ghost predicate AllRespect(es: seq<Event>, m: Mine) {
    forall i :: 0 <= i < |es| ==> Respects(es[i], m)
  }

  /** What a step appends through the handle. */
  function AppendedBy(s: State, e: Event, handle: nat): Bytes {
    match e
    case WriteMiddle(task, _) =>
      if task in s.tasks && s.tasks[task].Checked? && !s.tasks[task].last && s.tasks[task].key in s.t.entries
         && s.t.entries[s.tasks[task].key].handle == handle
      then s.tasks[task].chunk.data else []
    case WriteLast(task, failsAfter) =>
      if task in s.tasks && s.tasks[task].Taken? && s.tasks[task].upload.handle == handle then
        var data := s.tasks[task].chunk.data;
        if failsAfter.Some? && failsAfter.value <= |data| then data[..failsAfter.value] else data
      else []
    case _ => []
  }

  function Appended(s: State, es: seq<Event>, handle: nat): Bytes {
    if es == [] then []
    else Appended(s, es[..|es| - 1], handle) + AppendedBy(Run(s, es[..|es| - 1]), es[|es| - 1], handle)
  }

  predicate Commits(s: State, e: Event, m: Mine) {
    && e.RenameTemp? && e.task in s.tasks && s.tasks[e.task].Written?
    && s.tasks[e.task].upload.handle == m.handle
    && Commit(s.t, s.tasks[e.task].upload, e.ok).1
  }

  lemma OwnOpen(s: State, e: Event, m: Mine)
    requires Inv(s) && Own(s, m) && Respects(e, m) && e.Open?
    ensures Own(DoOpen(s, e.task, e.cid, e.dir, e.filename, e.totalChunks, e.ok).0, m)
    ensures DoOpen(s, e.task, e.cid, e.dir, e.filename, e.totalChunks, e.ok).0.t.fs.data[m.file] == s.t.fs.data[m.file]
  {
    hide HandlesOk, KeysOk, FilePath, TempPath;
    if e.task !in s.tasks && e.ok {
      var (t, u) := OpenTemp(s.t, e.dir, e.filename, e.totalChunks);
      assert FinalPath(u) == FilePath(e.dir, e.filename);
      assert u.file != m.file;
      assert Apart(u, m);
    }
  }

  lemma OwnWrite(s: State, e: Event, m: Mine)
    requires Inv(s) && Own(s, m) && (e.WriteMiddle? || e.WriteLast?)
    ensures Own(Step(s, e).0, m)
    ensures Step(s, e).0.t.fs.data[m.file] == s.t.fs.data[m.file] + AppendedBy(s, e, m.handle)
  {
    hide HandlesOk, KeysOk, FilePath, TempPath;
  }

  lemma OwnRename(s: State, e: Event, m: Mine)
    requires Inv(s) && Own(s, m) && e.RenameTemp? && !Commits(s, e, m)
    ensures Own(DoRename(s, e.task, e.ok).0, m)
    ensures DoRename(s, e.task, e.ok).0.t.fs.data == s.t.fs.data
  {
    hide HandlesOk, KeysOk, FilePath, TempPath;
  }

  /** A step that does not commit the upload keeps it apart from all others, and changes its
      file only by what its own chunks append. */
  lemma OwnStep(s: State, e: Event, m: Mine)
    requires Inv(s) && Own(s, m) && Respects(e, m) && !Commits(s, e, m)
    ensures Own(Step(s, e).0, m)
    ensures Step(s, e).0.t.fs.data[m.file] == s.t.fs.data[m.file] + AppendedBy(s, e, m.handle)
  {
    hide HandlesOk, KeysOk, FilePath, TempPath, NamesOwn, DoOpen, DoWriteMiddle, DoWriteLast, DoRename, Commits;
    match e
    case Open(_, _, _, _, _, _) => OwnOpen(s, e, m);
    case Insert(task, now) =>
    case Begin(task, cid, id, chunk) =>
    case WriteMiddle(task, now) => OwnWrite(s, e, m);
    case Take(task) =>
    case WriteLast(task, failsAfter) => OwnWrite(s, e, m);
    case RenameTemp(task, ok) => OwnRename(s, e, m);
    case Drop(key) =>
    case RemoveFile(path, ok) => OwnRemove(s, path, ok, m);
    case DrawId =>
  }

  lemma OwnRemove(s: State, path: string, ok: bool, m: Mine)
    requires NamesOwn(s.t.fs, m)
    ensures NamesOwn(RemovePath(s.t, path, ok).0.fs, m)
    ensures RemovePath(s.t, path, ok).0.fs.data == s.t.fs.data
  {
  }

  /** The commit moves the file, as it is, from the temporary to the final path. */
  lemma CommitMoves(s: State, e: Event, m: Mine)
    requires Inv(s) && Own(s, m) && Commits(s, e, m)
    ensures
      var fs := Step(s, e).0.t.fs;
      && m.temp !in fs.names && m.final in fs.names && fs.names[m.final] == m.file
      && fs.data == s.t.fs.data
      && m.final !in s.t.fs.names
  {
    hide HandlesOk, KeysOk, FilePath, TempPath;
  }

  predicate NeverCommits(s: State, es: seq<Event>, m: Mine) {
    es == [] || (NeverCommits(s, es[..|es| - 1], m) && !Commits(Run(s, es[..|es| - 1]), es[|es| - 1], m))
  }

  /** As long as an upload that has its temporary path to itself is not committed, its file
      holds what it held at first followed by exactly the upload's chunks, in the order in
      which they were written. */
  lemma {:induction false} TempContent(s: State, es: seq<Event>, m: Mine)
    requires Inv(s) && Own(s, m) && AllRespect(es, m) && NeverCommits(s, es, m)
    ensures Own(Run(s, es), m) && m.file in s.t.fs.data && m.file in Run(s, es).t.fs.data
    ensures Run(s, es).t.fs.data[m.file] == s.t.fs.data[m.file] + Appended(s, es, m.handle)
  {
    hide Step, Inv, Own, Commits, Respects, AppendedBy;
    if es != [] {
      var init, e := es[..|es| - 1], es[|es| - 1];
      assert forall i :: 0 <= i < |init| ==> init[i] == es[i];
      TempContent(s, init, m);
      RunKeeps(s, init);
      OwnStep(Run(s, init), e, m);
      OwnFile(Run(s, init), m);
      OwnFile(Run(s, es), m);
    } else {
      OwnFile(s, m);
    }
  }

  // --- the browser's loop ------------------------------------------------------------------------------

  /** A session starts on a chunk of upload `key`. */
  predicate IsBegin(s: State, e: Event, key: TransferKey) {
    e.Begin? && (e.cid, e.id) == key && e.task !in s.tasks
  }

  predicate IsAck(s: State, e: Event, key: TransferKey) {
    Step(s, e).1.Acked? && Step(s, e).1.key == key
  }

  function Begins(s: State, es: seq<Event>, key: TransferKey): nat {
    if es == [] then 0
    else Begins(s, es[..|es| - 1], key) + if IsBegin(Run(s, es[..|es| - 1]), es[|es| - 1], key) then 1 else 0
  }

  function Acks(s: State, es: seq<Event>, key: TransferKey): nat {
    if es == [] then 0
    else Acks(s, es[..|es| - 1], key) + if IsAck(Run(s, es[..|es| - 1]), es[|es| - 1], key) then 1 else 0
  }

  /** The browser sends the chunks of `file` in order, each once, and each only after the
      acknowledgement of the one before. */
  predicate StopAndWait(s: State, es: seq<Event>, key: TransferKey, file: Bytes) {
    es == [] || (
      var init, e := es[..|es| - 1], es[|es| - 1];
      && StopAndWait(s, init, key, file)
      && (IsBegin(Run(s, init), e, key) ==> Sends(e.chunk, Acks(s, init, key), Begins(s, init, key), file)))
  }

  predicate Sends(chunk: Chunk, acks: nat, begins: nat, file: Bytes) {
    && acks == begins < CeilDiv(|file|)
    && chunk == UM.Chunk(acks, ChunkAt(file, acks))
  }

  function Prefix(file: Bytes, count: nat): Bytes {
    Concat(Split(file, count))
  }

  lemma PrefixGrows(file: Bytes, count: nat)
    ensures Prefix(file, count + 1) == Prefix(file, count) + ChunkAt(file, count)
  {
    assert Split(file, count + 1) == Split(file, count) + [ChunkAt(file, count)];
    ConcatSnoc(Split(file, count), ChunkAt(file, count));
  }

  /** What is fixed about one run of the browser's loop. */
  datatype Loop = Loop(key: TransferKey, mine: Mine, file: Bytes, base: Bytes)

  predicate Concerns(p: Task, key: TransferKey) {
    !p.Opened? && p.key == key
  }

  /** A task working on chunk `acks` of the upload; past the table only with the last one. */
  predicate Job(p: Task, l: Loop, acks: nat, begins: nat) {
    && Concerns(p, l.key)
    && begins == acks + 1 && acks < l.mine.total
    && p.chunk == UM.Chunk(acks, ChunkAt(l.file, acks))
    && (if p.Checked? then p.last == (acks + 1 >= l.mine.total)
        else Holds(p, l.mine.handle) && acks + 1 == l.mine.total)
  }

  /** At most one task, `cur`, works on the upload, on the chunk after the last
      acknowledgement. */
  ghost predicate TasksFit(tasks: Tasks, l: Loop, cur: Option<nat>, acks: nat, begins: nat) {
    && (forall i :: i in tasks && cur != Some(i) ==> !Concerns(tasks[i], l.key) && !Holds(tasks[i], l.mine.handle))
    && (if cur.Some? then cur.value in tasks && Job(tasks[cur.value], l, acks, begins) else acks <= begins <= acks + 1)
  }

  /** The table entry for the key is the upload, and no other is. */
  ghost predicate EntriesFit(entries: Entries, nextId: nat, l: Loop) {
    && l.key.1 < nextId
    && forall k :: k in entries ==> (entries[k].handle == l.mine.handle <==> k == l.key)
  }

  ghost predicate Fits(s: State, l: Loop, cur: Option<nat>, acks: nat, begins: nat) {
    EntriesFit(s.t.entries, s.t.nextId, l) && TasksFit(s.tasks, l, cur, acks, begins)
  }

  predicate HasWritten(s: State, cur: Option<nat>) {
    cur.Some? && cur.value in s.tasks && s.tasks[cur.value].Written?
  }

  /** The file holds the acknowledged chunks, and the last one too once it is written. */
  ghost predicate Holding(s: State, l: Loop, cur: Option<nat>, acks: nat) {
    && l.mine.file in s.t.fs.data
    && s.t.fs.data[l.mine.file] == l.base + Prefix(l.file, if HasWritten(s, cur) then acks + 1 else acks)
  }

  ghost predicate Active(s: State, l: Loop, cur: Option<nat>, acks: nat, begins: nat) {
    && Own(s, l.mine)
    && Fits(s, l, cur, acks, begins)
    && Holding(s, l, cur, acks)
  }

  /** Either the loop is on track or the upload is gone for good. */
  ghost predicate OnTrack(s: State, l: Loop, acks: nat, begins: nat) {
    Dead(s, l.key) || exists cur :: Active(s, l, cur, acks, begins)
  }

  lemma OpenFits(s: State, l: Loop, cur: Option<nat>, acks: nat, begins: nat, e: Event)
    requires e.Open? && Fits(s, l, cur, acks, begins) && l.mine.handle < s.t.issued
    ensures
      var (s', out) := DoOpen(s, e.task, e.cid, e.dir, e.filename, e.totalChunks, e.ok);
      Fits(s', l, cur, acks, begins) && HasWritten(s', cur) == HasWritten(s, cur) && !out.Acked?
  {
    hide FilePath, TempPath, ChunkAt;
  }

  lemma InsertFits(s: State, l: Loop, cur: Option<nat>, acks: nat, begins: nat, task: nat, now: int)
    requires Fits(s, l, cur, acks, begins)
    ensures
      var (s', out) := DoInsert(s, task, now);
      Fits(s', l, cur, acks, begins) && HasWritten(s', cur) == HasWritten(s, cur) && !out.Acked?
  {
    hide ChunkAt;
    if task in s.tasks && s.tasks[task].Opened? {
      assert cur != Some(task);
      assert Holds(s.tasks[task], s.tasks[task].upload.handle);
    }
  }

  /** A session starts on a chunk: of this upload, which the browser's loop constrains, or
      of another. */
  lemma BeginFits(s: State, l: Loop, cur: Option<nat>, acks: nat, begins: nat, task: nat, key: TransferKey,
                  chunk: Chunk)
    requires Fits(s, l, cur, acks, begins)
    requires key == l.key && key in s.t.entries ==> s.t.entries[key].totalChunks == l.mine.total
    requires key == l.key && task !in s.tasks ==>
      Sends(chunk, acks, begins, l.file) && l.mine.total == CeilDiv(|l.file|)
    ensures
      var (s', out) := DoBegin(s, task, key, chunk);
      var mine := key == l.key && task !in s.tasks;
      var cur' := if mine && key in s.t.entries then Some(task) else cur;
      && Fits(s', l, cur', acks, if mine then begins + 1 else begins)
      && HasWritten(s', cur') == HasWritten(s, cur) && !out.Acked?
  {
    hide ChunkAt;
  }

  lemma WriteMiddleFits(s: State, l: Loop, cur: Option<nat>, acks: nat, begins: nat, task: nat, now: int)
    requires Fits(s, l, cur, acks, begins)
    ensures
      var (s', out) := DoWriteMiddle(s, task, now);
      var acked := out.Acked? && out.key == l.key;
      var cur' := if cur == Some(task) && s' != s then None else cur;
      && Fits(s', l, cur', if acked then acks + 1 else acks, begins)
      && HasWritten(s', cur') == HasWritten(s, cur)
      && (acked ==> !HasWritten(s, cur))
      && (acked ==> AppendedBy(s, WriteMiddle(task, now), l.mine.handle) == ChunkAt(l.file, acks))
      && (acked ==> out == Acked(l.key, acks, false) && acks + 1 < l.mine.total)
      && (!acked ==> AppendedBy(s, WriteMiddle(task, now), l.mine.handle) == [])
  {
    hide ChunkAt;
  }

  lemma TakeFits(s: State, l: Loop, cur: Option<nat>, acks: nat, begins: nat, task: nat)
    requires Fits(s, l, cur, acks, begins)
    ensures
      var (s', out) := DoTake(s, task);
      var cur' := if cur == Some(task) && task !in s'.tasks then None else cur;
      && Fits(s', l, cur', acks, begins)
      && HasWritten(s', cur') == HasWritten(s, cur) && !out.Acked?
  {
    hide ChunkAt;
  }

  lemma WriteLastFits(s: State, l: Loop, cur: Option<nat>, acks: nat, begins: nat, task: nat, failsAfter: Option<nat>)
    requires Fits(s, l, cur, acks, begins)
    ensures
      var (s', out) := DoWriteLast(s, task, failsAfter);
      var appended := AppendedBy(s, WriteLast(task, failsAfter), l.mine.handle);
      && !out.Acked?
      && (cur != Some(task) || !s.tasks[task].Taken? ==>
            Fits(s', l, cur, acks, begins) && HasWritten(s', cur) == HasWritten(s, cur) && appended == [])
      && (cur == Some(task) && s.tasks[task].Taken? && failsAfter == None ==>
            Fits(s', l, cur, acks, begins) && HasWritten(s', cur) && !HasWritten(s, cur)
              && appended == ChunkAt(l.file, acks))
  {
    hide ChunkAt;
  }

  lemma RenameFits(s: State, l: Loop, cur: Option<nat>, acks: nat, begins: nat, task: nat, ok: bool)
    requires Fits(s, l, cur, acks, begins)
    ensures
      var (s', out) := DoRename(s, task, ok);
      && (cur != Some(task) || !s.tasks[task].Written? ==>
            && Fits(s', l, cur, acks, begins) && HasWritten(s', cur) == HasWritten(s, cur)
            && !(out.Acked? && out.key == l.key)
            && !Commits(s, RenameTemp(task, ok), l.mine))
      && (cur == Some(task) && s.tasks[task].Written? && out.Acked? ==>
            out == Acked(l.key, acks, true) && acks + 1 == l.mine.total && Commits(s, RenameTemp(task, ok), l.mine))
  {
    hide ChunkAt, FilePath, TempPath;
  }

  lemma DropFits(s: State, l: Loop, cur: Option<nat>, acks: nat, begins: nat, key: TransferKey)
    requires Fits(s, l, cur, acks, begins)
    ensures var s' := s.(t := DropEntry(s.t, key));
      Fits(s', l, cur, acks, begins) && HasWritten(s', cur) == HasWritten(s, cur)
  {
    hide ChunkAt;
  }

  /** The file's content after a step follows from what the step appended. */
  lemma HoldingStep(s: State, e: Event, l: Loop, cur: Option<nat>, acks: nat, cur': Option<nat>, acks': nat)
    requires Inv(s) && Own(s, l.mine) && Respects(e, l.mine) && !Commits(s, e, l.mine)
    requires Holding(s, l, cur, acks)
    requires
      var s' := Step(s, e).0;
      var before := if HasWritten(s, cur) then acks + 1 else acks;
      var after := if HasWritten(s', cur') then acks' + 1 else acks';
      || (after == before && AppendedBy(s, e, l.mine.handle) == [])
      || (after == before + 1 && AppendedBy(s, e, l.mine.handle) == ChunkAt(l.file, before))
    ensures Own(Step(s, e).0, l.mine) && Holding(Step(s, e).0, l, cur', acks')
  {
    hide Step, Own, Inv, Respects, Commits, AppendedBy, ChunkAt, Prefix, HasWritten;
    OwnStep(s, e, l.mine);
    OwnFile(Step(s, e).0, l.mine);
    PrefixGrows(l.file, if HasWritten(s, cur) then acks + 1 else acks);
  }

  lemma OwnFile(s: State, m: Mine)
    requires Own(s, m)
    ensures m.handle < s.t.issued && m.file in s.t.fs.data
  {
  }

  lemma OwnEntry(s: State, l: Loop, cur: Option<nat>, acks: nat, begins: nat)
    requires Own(s, l.mine) && Fits(s, l, cur, acks, begins)
    ensures l.key in s.t.entries ==> s.t.entries[l.key].totalChunks == l.mine.total
  {
  }

  /** The upload's last chunk is out of the table, and its task is about to let go of it. */
  lemma LetGo(s: State, l: Loop, cur: Option<nat>, acks: nat, begins: nat, p: Tasks)
    requires Inv(s) && Fits(s, l, cur, acks, begins)
    requires cur.Some? && InFlight(s.tasks[cur.value], l.key)
    requires p == s.tasks - {cur.value}
    ensures l.key !in s.t.entries && forall i :: i in p ==> !InFlight(p[i], l.key)
  {
  }

  lemma CurThere(s: State, l: Loop, cur: Option<nat>, acks: nat, begins: nat)
    requires Fits(s, l, cur, acks, begins)
    ensures cur.Some? ==> cur.value in s.tasks
  {
  }

  lemma Conclude(s: State, l: Loop, cur: Option<nat>, acks: nat, begins: nat)
    requires Own(s, l.mine) && Fits(s, l, cur, acks, begins) && Holding(s, l, cur, acks)
    ensures OnTrack(s, l, acks, begins)
  {
    assert Active(s, l, cur, acks, begins);
  }

  lemma NoCommit(s: State, e: Event, l: Loop)
    requires !e.RenameTemp?
    ensures !Commits(s, e, l.mine)
  {
  }

  /** Only writes append. */
  lemma Quiet(s: State, e: Event, l: Loop)
    requires !e.WriteMiddle? && !e.WriteLast?
    ensures AppendedBy(s, e, l.mine.handle) == []
    ensures !e.RenameTemp? ==> !Commits(s, e, l.mine)
  {
  }

  lemma RemoveFits(s: State, l: Loop, cur: Option<nat>, acks: nat, begins: nat, path: string, ok: bool)
    requires Fits(s, l, cur, acks, begins)
    ensures var s' := s.(t := RemovePath(s.t, path, ok).0);
      Fits(s', l, cur, acks, begins) && HasWritten(s', cur) == HasWritten(s, cur)
  {
    hide ChunkAt;
  }

  lemma DrawFits(s: State, l: Loop, cur: Option<nat>, acks: nat, begins: nat)
    requires Fits(s, l, cur, acks, begins)
    ensures var s' := s.(t := s.t.(nextId := s.t.nextId + 1));
      Fits(s', l, cur, acks, begins) && HasWritten(s', cur) == HasWritten(s, cur)
  {
    hide ChunkAt;
  }

  lemma WriteLastFails(s: State, l: Loop, cur: Option<nat>, acks: nat, begins: nat, task: nat, failsAfter: Option<nat>)
    requires Inv(s) && Fits(s, l, cur, acks, begins)
    requires cur == Some(task) && s.tasks[task].Taken? && failsAfter.Some?
    ensures Dead(DoWriteLast(s, task, failsAfter).0, l.key)
  {
    LetGo(s, l, cur, acks, begins, s.tasks - {task});
    hide Inv, HandlesOk, ChunkAt;
  }

  lemma RenameEnds(s: State, l: Loop, cur: Option<nat>, acks: nat, begins: nat, task: nat, ok: bool)
    requires Inv(s) && Fits(s, l, cur, acks, begins)
    requires cur == Some(task) && s.tasks[task].Written?
    ensures Dead(DoRename(s, task, ok).0, l.key) && HasWritten(s, cur)
  {
    LetGo(s, l, cur, acks, begins, s.tasks - {task});
    hide Inv, HandlesOk, ChunkAt, FilePath;
  }

  /** Every step keeps the loop on track, and counts. */
  lemma OnTrackStep(s: State, e: Event, l: Loop, cur: Option<nat>, acks: nat, begins: nat)
    requires Inv(s) && Active(s, l, cur, acks, begins) && Respects(e, l.mine)
    requires l.mine.total == CeilDiv(|l.file|)
    requires IsBegin(s, e, l.key) ==> Sends(e.chunk, acks, begins, l.file)
    ensures
      OnTrack(Step(s, e).0, l,
              if IsAck(s, e, l.key) then acks + 1 else acks,
              if IsBegin(s, e, l.key) then begins + 1 else begins)
    ensures IsAck(s, e, l.key) ==> Step(s, e).1 == Acked(l.key, acks, acks + 1 == l.mine.total)
    ensures IsAck(s, e, l.key) && acks + 1 == l.mine.total ==>
      Commits(s, e, l.mine) && HasWritten(s, cur) && Dead(Step(s, e).0, l.key)
  {
    hide DoOpen, DoInsert, DoBegin, DoWriteMiddle, DoTake, DoWriteLast, DoRename, DropEntry, RemovePath;
    hide Inv, Own, Fits, Holding, Dead, HasWritten, Commits, AppendedBy, Sends, Respects, CeilDiv, ChunkAt;
    OwnFile(s, l.mine);
    CurThere(s, l, cur, acks, begins);
    match e
    case Open(_, _, _, _, _, _) =>
      OpenFits(s, l, cur, acks, begins, e);
      Quiet(s, e, l);
      HoldingStep(s, e, l, cur, acks, cur, acks);
      Conclude(Step(s, e).0, l, cur, acks, begins);
    case Insert(task, now) =>
      InsertFits(s, l, cur, acks, begins, task, now);
      Quiet(s, e, l);
      HoldingStep(s, e, l, cur, acks, cur, acks);
      Conclude(Step(s, e).0, l, cur, acks, begins);
    case Begin(task, cid, id, chunk) =>
      var mine := IsBegin(s, e, l.key);
      OwnEntry(s, l, cur, acks, begins);
      BeginFits(s, l, cur, acks, begins, task, (cid, id), chunk);
      Quiet(s, e, l);
      var cur' := if mine && (cid, id) in s.t.entries then Some(task) else cur;
      HoldingStep(s, e, l, cur, acks, cur', acks);
      Conclude(Step(s, e).0, l, cur', acks, if mine then begins + 1 else begins);
    case WriteMiddle(task, now) =>
      WriteMiddleFits(s, l, cur, acks, begins, task, now);
      NoCommit(s, e, l);
      var s' := Step(s, e).0;
      var cur' := if cur == Some(task) && s' != s then None else cur;
      var acks' := if IsAck(s, e, l.key) then acks + 1 else acks;
      HoldingStep(s, e, l, cur, acks, cur', acks');
      Conclude(s', l, cur', acks', begins);
    case Take(task) =>
      TakeFits(s, l, cur, acks, begins, task);
      Quiet(s, e, l);
      var cur' := if cur == Some(task) && task !in Step(s, e).0.tasks then None else cur;
      HoldingStep(s, e, l, cur, acks, cur', acks);
      Conclude(Step(s, e).0, l, cur', acks, begins);
    case WriteLast(task, failsAfter) =>
      WriteLastFits(s, l, cur, acks, begins, task, failsAfter);
      NoCommit(s, e, l);
      if cur == Some(task) && s.tasks[task].Taken? && failsAfter.Some? {
        WriteLastFails(s, l, cur, acks, begins, task, failsAfter);
      } else {
        HoldingStep(s, e, l, cur, acks, cur, acks);
        Conclude(Step(s, e).0, l, cur, acks, begins);
      }
    case RenameTemp(task, ok) =>
      RenameFits(s, l, cur, acks, begins, task, ok);
      if cur == Some(task) && s.tasks[task].Written? {
        RenameEnds(s, l, cur, acks, begins, task, ok);
      } else {
        Quiet(s, e, l);
        HoldingStep(s, e, l, cur, acks, cur, acks);
        Conclude(Step(s, e).0, l, cur, acks, begins);
      }
    case Drop(key) =>
      DropFits(s, l, cur, acks, begins, key);
      Quiet(s, e, l);
      HoldingStep(s, e, l, cur, acks, cur, acks);
      Conclude(Step(s, e).0, l, cur, acks, begins);
    case RemoveFile(path, ok) =>
      RemoveFits(s, l, cur, acks, begins, path, ok);
      Quiet(s, e, l);
      HoldingStep(s, e, l, cur, acks, cur, acks);
      Conclude(Step(s, e).0, l, cur, acks, begins);
    case DrawId =>
      DrawFits(s, l, cur, acks, begins);
      Quiet(s, e, l);
      HoldingStep(s, e, l, cur, acks, cur, acks);
      Conclude(Step(s, e).0, l, cur, acks, begins);
  }

  /** Through any interleaving the loop stays on track: the acknowledgements say how much of
      the file has been appended. */
  lemma {:induction false} LoopRun(s: State, es: seq<Event>, l: Loop)
    requires Inv(s) && Active(s, l, None, 0, 0) && AllRespect(es, l.mine)
    requires l.mine.total == CeilDiv(|l.file|) && StopAndWait(s, es, l.key, l.file)
    ensures OnTrack(Run(s, es), l, Acks(s, es, l.key), Begins(s, es, l.key))
  {
    hide Step, Inv, Active, Dead, Sends, Respects, IsAck, IsBegin, CeilDiv;
    if es == [] {
      assert Active(s, l, None, 0, 0);
    } else {
      var init, e := es[..|es| - 1], es[|es| - 1];
      assert forall i :: 0 <= i < |init| ==> init[i] == es[i];
      LoopRun(s, init, l);
      RunKeeps(s, init);
      AnyStep(Run(s, init), e, l, Acks(s, init, l.key), Begins(s, init, l.key));
    }
  }

  lemma AnyStep(s: State, e: Event, l: Loop, acks: nat, begins: nat)
    requires Inv(s) && OnTrack(s, l, acks, begins) && Respects(e, l.mine)
    requires l.mine.total == CeilDiv(|l.file|)
    requires IsBegin(s, e, l.key) ==> Sends(e.chunk, acks, begins, l.file)
    ensures
      OnTrack(Step(s, e).0, l,
              if IsAck(s, e, l.key) then acks + 1 else acks,
              if IsBegin(s, e, l.key) then begins + 1 else begins)
  {
    hide Step, Inv, Active, Dead, Sends, Respects, IsBegin, CeilDiv;
    if Dead(s, l.key) {
      DeadStep(s, e, l.key);
    } else {
      var cur :| Active(s, l, cur, acks, begins);
      OnTrackStep(s, e, l, cur, acks, begins);
    }
  }

  // --- from the request to the committed file ----------------------------------------------------------------

  /** The upload a task has just opened. */
  function MineOf(u: FileUpload): Mine {
    Mine(u.handle, u.file, u.tempPath, FinalPath(u), u.totalChunks)
  }

  /** No upload in progress uses the file or the temporary path. */
  ghost predicate Alone(s: State, m: Mine) {
    && (forall k :: k in s.t.entries ==> Apart(s.t.entries[k], m))
    && (forall i :: i in s.tasks && !s.tasks[i].Checked? ==> Apart(s.tasks[i].upload, m))
  }

  function ContentAt(fs: Files, path: string): Bytes
    requires fs.Valid()
  {
    if path in fs.names then fs.data[fs.names[path]] else []
  }

  predicate StillOpen(s: State, task: nat, cid: Uuid, u: FileUpload) {
    task in s.tasks && s.tasks[task] == Opened(cid, u)
  }

  lemma OpenOwns(s: State, e: Event)
    requires Inv(s) && e.Open? && e.ok && e.task !in s.tasks
    ensures
      var s' := Step(s, e).0;
      && e.task in s'.tasks && s'.tasks[e.task].Opened?
      && var u := s'.tasks[e.task].upload;
      && StillOpen(s', e.task, e.cid, u)
      && u.totalChunks == e.totalChunks && u.tempPath == TempPath(FilePath(e.dir, e.filename))
      && FinalPath(u) == FilePath(e.dir, e.filename)
      && (Alone(s, MineOf(u)) ==>
            Own(s', MineOf(u)) && s'.t.fs.data[u.file] == ContentAt(s.t.fs, u.tempPath))
  {
    hide HandlesOk, KeysOk, TempPath, FilePath;
    var (t, u) := OpenTemp(s.t, e.dir, e.filename, e.totalChunks);
    CreateValid(s.t.fs, u.tempPath);
    var s' := Step(s, e).0;
    assert s'.tasks[e.task] == Opened(e.cid, u);
    assert Is(u, MineOf(u));
  }

  /** Between opening the file and storing the upload nothing else touches it. */
  lemma OpenStep(s: State, e: Event, task: nat, cid: Uuid, u: FileUpload)
    requires Inv(s) && StillOpen(s, task, cid, u) && !(e.Insert? && e.task == task)
    ensures StillOpen(Step(s, e).0, task, cid, u)
    ensures AppendedBy(s, e, u.handle) == [] && !Commits(s, e, MineOf(u))
  {
    hide KeysOk, FilesOk, FilePath, TempPath;
    assert Holds(s.tasks[task], u.handle);
  }

  lemma {:induction false} OpenRun(s: State, es: seq<Event>, task: nat, cid: Uuid, u: FileUpload)
    requires Inv(s) && StillOpen(s, task, cid, u) && Own(s, MineOf(u)) && AllRespect(es, MineOf(u))
    requires forall i :: 0 <= i < |es| ==> !(es[i].Insert? && es[i].task == task)
    ensures StillOpen(Run(s, es), task, cid, u) && Own(Run(s, es), MineOf(u))
    ensures Run(s, es).t.fs.data[u.file] == s.t.fs.data[u.file]
  {
    hide Step, HandlesOk, KeysOk, FilesOk, Commits, AppendedBy, Respects;
    if es != [] {
      var init, e := es[..|es| - 1], es[|es| - 1];
      assert forall i :: 0 <= i < |init| ==> init[i] == es[i];
      OpenRun(s, init, task, cid, u);
      RunKeeps(s, init);
      OpenStep(Run(s, init), e, task, cid, u);
      OwnStep(Run(s, init), e, MineOf(u));
    }
  }

  lemma InsertActive(s: State, task: nat, cid: Uuid, u: FileUpload, now: int, file: Bytes)
    requires Inv(s) && StillOpen(s, task, cid, u) && Own(s, MineOf(u))
    ensures
      var s' := Step(s, Insert(task, now)).0;
      var key := (cid, s.t.nextId);
      && Step(s, Insert(task, now)).1 == Started(key)
      && Active(s', Loop(key, MineOf(u), file, s.t.fs.data[u.file]), None, 0, 0)
  {
    var s' := Step(s, Insert(task, now)).0;
    var l := Loop((cid, s.t.nextId), MineOf(u), file, s.t.fs.data[u.file]);
    OwnStep(s, Insert(task, now), MineOf(u));
    assert Holds(s.tasks[task], u.handle);
    assert Fits(s', l, None, 0, 0) by {
      hide FilesOk, Own, FilePath;
    }
    assert Prefix(file, 0) == [];
  }

  /** The whole upload.  A session opens the temporary file, which no other upload uses, and
      stores the upload; the browser sends the chunks of its file one at a time; everything
      else the agent does may interleave.  If the last chunk is acknowledged, then at that
      moment the final path, which did not exist before, holds what the temporary file held
      at first followed by exactly the browser's file, the temporary path is gone, and so is
      the table entry. */
  lemma UploadCommits(s: State, open: Event, before: seq<Event>, now: int, rest: seq<Event>, last: Event, file: Bytes)
    requires Inv(s) && open.Open? && open.ok && open.task !in s.tasks && open.totalChunks == CeilDiv(|file|)
    requires
      var s1 := Step(s, open).0;
      && open.task in s1.tasks && s1.tasks[open.task].Opened?
      && var m := MineOf(s1.tasks[open.task].upload);
      && Alone(s, m) && AllRespect(before, m) && AllRespect(rest + [last], m)
      && (forall i :: 0 <= i < |before| ==> !(before[i].Insert? && before[i].task == open.task))
      && var s2 := Run(s1, before);
      var s3 := Step(s2, Insert(open.task, now)).0;
      && StopAndWait(s3, rest + [last], (open.cid, s2.t.nextId), file)
      && Step(Run(s3, rest), last).1.Acked?
      && Step(Run(s3, rest), last).1.key == (open.cid, s2.t.nextId)
      && Step(Run(s3, rest), last).1.index == CeilDiv(|file|) - 1
    ensures
      var s1 := Step(s, open).0;
      var s2 := Run(s1, before);
      var s3 := Step(s2, Insert(open.task, now)).0;
      var end := Step(Run(s3, rest), last).0;
      var final := FilePath(open.dir, open.filename);
      && final !in Run(s3, rest).t.fs.names
      && final in end.t.fs.names && end.t.fs.Valid()
      && ContentAt(end.t.fs, final) == ContentAt(s.t.fs, TempPath(final)) + file
      && TempPath(final) !in end.t.fs.names
      && Dead(end, (open.cid, s2.t.nextId))
      && Step(s2, Insert(open.task, now)).1 == Started((open.cid, s2.t.nextId))
  {
    hide Step, Run, Inv, Active, Own, Alone, FilePath, TempPath, StopAndWait, CeilDiv, FinalPath, AllRespect, Dead,
      ContentAt;
    var task, cid := open.task, open.cid;
    OpenOwns(s, open);
    StepKeeps(s, open);
    var s1 := Step(s, open).0;
    var u := s1.tasks[task].upload;
    OpenRun(s1, before, task, cid, u);
    RunKeeps(s1, before);
    var s2 := Run(s1, before);
    OwnFile(s2, MineOf(u));
    InsertActive(s2, task, cid, u, now, file);
    StepKeeps(s2, Insert(task, now));
    FinalAck(Step(s2, Insert(task, now)).0, rest, last,
             Loop((cid, s2.t.nextId), MineOf(u), file, s2.t.fs.data[u.file]));
  }

  lemma FinalAck(s: State, rest: seq<Event>, last: Event, l: Loop)
    requires Inv(s) && Active(s, l, None, 0, 0) && AllRespect(rest + [last], l.mine)
    requires l.mine.total == CeilDiv(|l.file|) && StopAndWait(s, rest + [last], l.key, l.file)
    requires IsAck(Run(s, rest), last, l.key) && Step(Run(s, rest), last).1.index == l.mine.total - 1
    ensures
      var before := Run(s, rest).t.fs;
      var end := Step(Run(s, rest), last).0;
      var fs := end.t.fs;
      && l.mine.final !in before.names && l.mine.final in fs.names && fs.Valid()
      && ContentAt(fs, l.mine.final) == l.base + l.file
      && l.mine.temp !in fs.names
      && Dead(end, l.key)
  {
    hide Step, Own, FilePath, TempPath, Commits, CeilDiv, FinalPath, Respects, HandlesOk, KeysOk, Dead, Sends, Prefix;
    var es := rest + [last];
    assert es[..|rest|] == rest;
    assert forall i :: 0 <= i < |rest| ==> rest[i] == es[i];
    LoopRun(s, rest, l);
    RunKeeps(s, rest);
    var before := Run(s, rest);
    var acks, begins := Acks(s, rest, l.key), Begins(s, rest, l.key);
    if Dead(before, l.key) {
      DeadStep(before, last, l.key);
    } else {
      var cur :| Active(before, l, cur, acks, begins);
      assert Respects(es[|rest|], l.mine);
      OnTrackStep(before, last, l, cur, acks, begins);
      CommitMoves(before, last, l.mine);
      StepKeeps(before, last);
      ChunksTile(l.file);
      assert Prefix(l.file, acks + 1) == l.file by { PrefixIs(l.file, acks + 1); }
    }
  }

  lemma PrefixIs(file: Bytes, count: nat)
    ensures Prefix(file, count) == Concat(Split(file, count))
  {
  }

  /** An upload announced with no chunks is never acknowledged, so never committed. */
  lemma EmptyNeverAcked(s: State, es: seq<Event>, last: Event, l: Loop)
    requires Inv(s) && Active(s, l, None, 0, 0) && AllRespect(es + [last], l.mine)
    requires l.file == [] && l.mine.total == CeilDiv(0) && StopAndWait(s, es + [last], l.key, l.file)
    ensures !IsAck(Run(s, es), last, l.key)
  {
    hide Step, Own, Commits, Respects, HandlesOk, KeysOk, FilesOk, Dead, Holding;
    var all := es + [last];
    assert all[..|es|] == es;
    assert forall i :: 0 <= i < |es| ==> es[i] == all[i];
    LoopRun(s, es, l);
    RunKeeps(s, es);
    var before := Run(s, es);
    var acks, begins := Acks(s, es, l.key), Begins(s, es, l.key);
    if Dead(before, l.key) {
      DeadStep(before, last, l.key);
    } else {
      var cur :| Active(before, l, cur, acks, begins);
      assert Respects(all[|es|], l.mine);
      assert cur == None;
      OnTrackStep(before, last, l, cur, acks, begins);
      assert !IsAck(before, last, l.key) by { AckNeedsTask(before, last, l, acks, begins); }
    }
  }

  lemma AckNeedsTask(s: State, e: Event, l: Loop, acks: nat, begins: nat)
    requires Fits(s, l, None, acks, begins)
    ensures !IsAck(s, e, l.key)
  {
    hide TempPath, FilePath, ChunkAt, CeilDiv;
  }
}
