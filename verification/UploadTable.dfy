/** The agent's upload handlers over its `uploads` map, run one command at a time, and the
    browser's upload loop on top of them.  Each handler is tied to the atomic steps of
    UploadModel. */
module UploadTable {
  import opened Protocol
  import opened Chunks
  import opened RemoteFiles
  import UM = UploadModel
  import opened UploadModel
  import opened UploadInvariants
  import opened UploadTheorems

  predicate Abandoned(u: FileUpload, now: int) {
    now - u.lastUpdated > TIMEOUT
  }

  function Swept(entries: Entries, now: int): Entries {
    map k | k in entries && !Abandoned(entries[k], now) :: entries[k]
  }

  function WithoutCid(entries: Entries, cid: Uuid): Entries {
    map k | k in entries && k.0 != cid :: entries[k]
  }

  function Uncancelled(entries: Entries, cid: Uuid, temp: string): Entries {
    map k | k in entries && !(k.0 == cid && entries[k].tempPath == temp) :: entries[k]
  }

  /** A chunk command as consecutive steps of one task. */
  function ChunkCommand(t: Table, cid: Uuid, id: nat, chunk: Chunk, failsAfter: Option<nat>, renameOk: bool,
                        now: int): (Table, Output) {
    var (s1, o1) := DoBegin(State(t, map[]), 0, (cid, id), chunk);
    if o1.Failed? then (s1.t, o1)
    else if !s1.tasks[0].last then
      var (s2, o2) := DoWriteMiddle(s1, 0, now);
      (s2.t, o2)
    else
      var (s2, _) := DoTake(s1, 0);
      var (s3, o3) := DoWriteLast(s2, 0, failsAfter);
      if o3.Failed? then (s3.t, o3)
      else
        var (s4, o4) := DoRename(s3, 0, renameOk);
        (s4.t, o4)
  }

  class UploadTable {
    var entries: Entries
    var nextId: nat
    var fs: Files
    var issued: nat
    var closed: multiset<nat>

    function Value(): Table
      reads this
    {
      Table(entries, nextId, fs, issued, closed)
    }

    /** In particular: each opened handle is in exactly one entry, or closed exactly once. */
    ghost predicate Valid()
      reads this
    {
      Inv(State(Value(), map[]))
    }

    constructor (files: Files)
      requires files.Valid()
      ensures Valid() && Value() == Table(map[], 1, files, 0, multiset{})
    {
      entries, nextId, fs, issued, closed := map[], 1, files, 0, multiset{};
    }

    /** Remove entries one by one; the handle of each is closed when it is dropped. */
    method RemoveAll(keys: set<TransferKey>)
      requires Valid() && keys <= entries.Keys
      modifies this`entries, this`closed
      ensures Valid() && entries == old(entries) - keys
    {
      hide Inv;
      var left := keys;
      while left != {}
        invariant left <= keys && left <= entries.Keys && Valid()
        invariant entries == old(entries) - (keys - left)
        decreases left
      {
        var k :| k in left;
        DropKeeps(State(Value(), map[]), k);
        left := left - {k};
        closed := closed + multiset{entries[k].handle};
        entries := entries - {k};
        assert keys - left == (keys - (left + {k})) + {k};
      }
      assert keys - left == keys;
    }

    method CleanupAbandonedUploads(now: int)
      requires Valid()
      modifies this`entries, this`closed
      ensures Valid() && entries == Swept(old(entries), now)
    {
      hide Inv;
      RemoveAll(set k | k in entries && Abandoned(entries[k], now));
    }

    method CloseUploadsForCid(cid: Uuid)
      requires Valid()
      modifies this`entries, this`closed
      ensures Valid() && entries == WithoutCid(old(entries), cid)
    {
      hide Inv;
      RemoveAll(set k | k in entries && k.0 == cid);
    }

    method CloseAllUploads()
      requires Valid()
      modifies this`entries, this`closed
      ensures Valid() && entries == map[]
    {
      hide Inv;
      RemoveAll(entries.Keys);
    }

    method GenerateId() returns (id: nat)
      requires Valid()
      modifies this`nextId
      ensures Valid() && id == old(nextId) && nextId == id + 1
    {
      hide HandlesOk;
      id := nextId;
      nextId := nextId + 1;
    }

    method StartUpload(dir: string, filename: string, totalChunks: nat, cid: Uuid, ok: bool, now: int)
      returns (reply: Output)
      requires Valid()
      modifies this
      ensures Valid()
      ensures
        var temp := TempPath(FilePath(dir, filename));
        var key := (cid, old(nextId));
        if ok then
          && reply == Started(key) && nextId == old(nextId) + 1 && issued == old(issued) + 1
          && var (fs', file) := old(fs).Create(temp);
             fs == fs'
             && entries == Swept(old(entries),
                                 now)[key := FileUpload(filename, dir, totalChunks, file, old(issued), temp, now)]
        else
          && reply.Failed? && nextId == old(nextId) && issued == old(issued) && fs == old(fs)
          && entries == Swept(old(entries), now)
    {
      hide Inv, FilePath, TempPath;
      CleanupAbandonedUploads(now);
      var tempPath := TempPath(FilePath(dir, filename));
      if !ok {
        return Failed("Failed to open file");
      }
      ghost var before := State(Value(), map[]);
      OpenKeeps(before, 0, cid, dir, filename, totalChunks, true);
      ghost var after := DoOpen(before, 0, cid, dir, filename, totalChunks, true).0;
      InsertKeeps(after, 0, now);
      var (files, file) := fs.Create(tempPath);
      fs := files;
      var handle := issued;
      issued := issued + 1;
      var id := nextId;
      nextId := nextId + 1;
      entries := entries[(cid, id) := FileUpload(filename, dir, totalChunks, file, handle, tempPath, now)];
      reply := Started((cid, id));
      assert after.tasks - {0} == map[];
    }

    /** Only the write of a final chunk may fail. */
    method UploadFileChunk(cid: Uuid, id: nat, chunk: Chunk, failsAfter: Option<nat>, renameOk: bool, now: int)
      returns (reply: Output)
      requires Valid()
      requires (cid, id) in entries && chunk.index + 1 < entries[(cid, id)].totalChunks ==> failsAfter == None
      modifies this
      ensures Valid()
      ensures (Value(), reply) == ChunkCommand(old(Value()), cid, id, chunk, failsAfter, renameOk, now)
    {
      var key := (cid, id);
      ghost var before := State(Value(), map[]);
      ChunkCommandKeeps(Value(), cid, id, chunk, failsAfter, renameOk, now);
      hide Inv, FilePath, TempPath;
      if key !in entries {
        return Failed("Upload ID not found");
      }
      if chunk.index + 1 >= entries[key].totalChunks {
        var upload := entries[key];
        entries := entries - {key};
        if failsAfter.Some? {
          fs := fs.Append(upload.file, if failsAfter.value <= |chunk.data| then chunk.data[..failsAfter.value]
                          else chunk.data);
          closed := closed + multiset{upload.handle};
          return Failed("Failed to write final chunk");
        }
        fs := fs.Append(upload.file, chunk.data);
        var renamed := fs.Rename(upload.tempPath, FinalPath(upload));
        closed := closed + multiset{upload.handle};
        if renameOk && renamed.Some? {
          fs := renamed.value;
          reply := Acked(key, chunk.index, true);
        } else {
          reply := Failed("Failed to rename file");
        }
      } else {
        fs := fs.Append(entries[key].file, chunk.data);
        entries := entries[key := entries[key].(lastUpdated := now)];
        reply := Acked(key, chunk.index, false);
      }
    }

    /** Delete a file, and first cancel the connection's uploads to its temporary path. */
    method DeleteFile(cid: Uuid, dir: string, filename: string, ok: bool) returns (reply: Output)
      requires Valid()
      modifies this`entries, this`closed, this`fs
      ensures Valid()
      ensures entries == Uncancelled(old(entries), cid, TempPath(DeletePath(dir, filename)))
      ensures
        var removed := old(fs).Remove(DeletePath(dir, filename));
        if ok && removed.Some? then fs == removed.value && reply == Nothing else fs == old(fs) && reply.Failed?
    {
      hide Inv, DeletePath, TempPath;
      var filePath := DeletePath(dir, filename);
      var tempPath := TempPath(filePath);
      RemoveAll(set k | k in entries && k.0 == cid && entries[k].tempPath == tempPath);
      ghost var before := State(Value(), map[]);
      var removed := fs.Remove(filePath);
      if ok && removed.Some? {
        RemoveKeeps(before, filePath);
        fs := removed.value;
        reply := Nothing;
      } else {
        reply := Failed("Failed to delete file");
      }
    }
  }

  lemma RemoveKeeps(s: State, path: string)
    requires Inv(s) && path in s.t.fs.names
    ensures Inv(s.(t := s.t.(fs := s.t.fs.Remove(path).value)))
  {
    hide HandlesOk, KeysOk;
  }

  lemma ChunkCommandKeeps(t: Table, cid: Uuid, id: nat, chunk: Chunk, failsAfter: Option<nat>, renameOk: bool, now: int)
    requires Inv(State(t, map[]))
    ensures Inv(State(ChunkCommand(t, cid, id, chunk, failsAfter, renameOk, now).0, map[]))
  {
    hide Inv, AppendMiddle, AppendLast, Commit;
    var s0 := State(t, map[]);
    BeginKeeps(s0, 0, (cid, id), chunk);
    var (s1, o1) := DoBegin(s0, 0, (cid, id), chunk);
    if !o1.Failed? {
      if s1.tasks[0].last {
        TakeKeeps(s1, 0);
        var s2 := DoTake(s1, 0).0;
        WriteLastKeeps(s2, 0, failsAfter);
        var (s3, o3) := DoWriteLast(s2, 0, failsAfter);
        if o3.Failed? {
          assert s3.tasks == map[];
        } else {
          RenameKeeps(s3, 0, renameOk);
          assert DoRename(s3, 0, renameOk).0.tasks == map[];
        }
      } else {
        WriteMiddleKeeps(s1, 0, now);
        assert DoWriteMiddle(s1, 0, now).0.tasks == map[];
      }
    }
  }

  /** Delete reaches the upload to the file it names exactly when the directory does not end
      in two or more slashes. */
  lemma DeleteReachesUpload(entries: Entries, cid: Uuid, dir: string, filename: string, id: nat)
    requires (cid, id) in entries && entries[(cid, id)].tempPath == TempPath(FilePath(dir, filename))
    ensures (cid, id) !in Uncancelled(entries, cid, TempPath(DeletePath(dir, filename))) <==> !EndsInTwoSlashes(dir)
  {
    DeletePathIsFilePath(dir, filename);
    if TempPath(DeletePath(dir, filename)) == TempPath(FilePath(dir, filename)) {
      TempPathInjective(DeletePath(dir, filename), FilePath(dir, filename));
    }
  }

  /** In that case it cancels exactly that connection's uploads to that path. */
  lemma DeleteCancelsExactly(entries: Entries, cid: Uuid, dir: string, filename: string)
    requires !EndsInTwoSlashes(dir)
    ensures
      var kept := Uncancelled(entries, cid, TempPath(DeletePath(dir, filename)));
      && (forall k ::
          k in kept <==> k in entries && (k.0 != cid || entries[k].tempPath != TempPath(FilePath(dir, filename))))
      && (forall k :: k in kept ==> kept[k] == entries[k])
  {
    DeletePathIsFilePath(dir, filename);
  }

  // --- the browser ------------------------------------------------------------------------------------

  predicate Describes(u: FileUpload, dir: string, filename: string, totalChunks: nat, file: nat) {
    && u.filename == filename && u.remotePath == dir && u.totalChunks == totalChunks && u.file == file
    && u.tempPath == TempPath(FilePath(dir, filename))
  }

  /** The upload is done: committed with the given content, and out of the table. */
  ghost predicate Arrived(t: Table, key: TransferKey, final: string, content: Bytes) {
    && key !in t.entries && t.fs.Valid()
    && TempPath(final) !in t.fs.names && final in t.fs.names
    && ContentAt(t.fs, final) == content
  }

  lemma MiddleChunk(t: Table, cid: Uuid, id: nat, chunk: Chunk, renameOk: bool, now: int)
    requires (cid, id) in t.entries && chunk.index + 1 < t.entries[(cid, id)].totalChunks
    ensures ChunkCommand(t, cid, id, chunk, None, renameOk, now)
            == (AppendMiddle(t, (cid, id), chunk.data, now), Acked((cid, id), chunk.index, false))
  {
  }

  lemma LastChunk(t: Table, cid: Uuid, id: nat, chunk: Chunk, failsAfter: Option<nat>, renameOk: bool, now: int)
    requires (cid, id) in t.entries && chunk.index + 1 >= t.entries[(cid, id)].totalChunks
    ensures
      var (t', reply) := ChunkCommand(t, cid, id, chunk, failsAfter, renameOk, now);
      var u := t.entries[(cid, id)];
      var renamed := t.fs.Append(u.file, chunk.data).Rename(u.tempPath, FinalPath(u));
      && t'.entries == t.entries - {(cid, id)}
      && (if failsAfter == None && renameOk && renamed.Some? then
            reply == Acked((cid, id), chunk.index, true) && t'.fs == renamed.value
          else reply.Failed?)
  {
  }

  lemma CreateContent(fs: Files, temp: string)
    requires fs.Valid()
    ensures
      var (fs', f) := fs.Create(temp);
      && fs'.Valid() && fs'.names == fs.names[temp := f] && f in fs'.data
      && fs'.data == fs'.data[f := ContentAt(fs, temp) + []]
  {
    var (fs', f) := fs.Create(temp);
    assert ContentAt(fs, temp) + [] == fs'.data[f];
  }

  lemma AppendMore(fs: Files, f: nat, base: Bytes, written: Bytes, more: Bytes)
    ensures fs.(data := fs.data[f := base + written]).Append(f, more)
            == fs.(data := fs.data[f := base + (written + more)])
  {
    assert base + written + more == base + (written + more);
  }

  /** The rename succeeds exactly when the final path was free. */
  lemma RenameFresh(before: Files, fs: Files, f: nat, final: string)
    requires fs.Valid() && fs.names == before.names[TempPath(final) := f]
    ensures
      var renamed := fs.Rename(TempPath(final), final);
      && (renamed.Some? <==> final !in before.names)
      && (renamed.Some? ==>
           && renamed.value.Valid() && TempPath(final) !in renamed.value.names
           && final in renamed.value.names && ContentAt(renamed.value, final) == fs.data[f])
  {
    assert |TempPath(final)| == |final| + 4;
  }

  lemma PrefixEnds(file: Bytes)
    ensures Prefix(file, 0) == [] && Prefix(file, CeilDiv(|file|)) == file
    ensures CeilDiv(|file|) == 0 <==> file == []
  {
    ChunksTile(file);
  }

  lemma InvFiles(s: State)
    requires Inv(s)
    ensures s.t.fs.Valid() && forall k :: k in s.t.entries ==> s.t.entries[k].file in s.t.fs.data
  {
  }

  /** The browser's loop, with no other command in between.  It stops at the first chunk that
      is not acknowledged.  The file arrives exactly when it is not empty, nothing fails and
      the final path is free; an empty one leaves the open entry behind. */
  method UploadFile(agent: UploadTable, cid: Uuid, dir: string, filename: string, file: Bytes, openOk: bool,
                    failsAfter: Option<nat>, renameOk: bool, now: int)
    returns (uploadedChunks: nat)
    requires agent.Valid()
    modifies agent
    ensures agent.Valid()
    ensures
      var final := FilePath(dir, filename);
      var key := (cid, old(agent.nextId));
      var arrives := file != [] && openOk && failsAfter == None && renameOk && final !in old(agent.fs).names;
      && (arrives <==> file != [] && uploadedChunks == CeilDiv(|file|))
      && (arrives ==>
           && ContentAt(agent.fs, final) == ContentAt(old(agent.fs), TempPath(final)) + file
           && TempPath(final) !in agent.fs.names && key !in agent.entries)
      && (file == [] && openOk ==> key in agent.entries && agent.fs == old(agent.fs).Create(TempPath(final)).0)
  {
    hide Inv, FilePath, TempPath, ChunkCommand, ChunkAt, CeilDiv, Prefix, Files.Create, Files.Rename;
    var totalChunks := CeilDiv(|file|);
    uploadedChunks := 0;
    PrefixEnds(file);
    InvFiles(State(agent.Value(), map[]));
    ghost var files, final := agent.fs, FilePath(dir, filename);
    CreateContent(files, TempPath(final));
    var started := agent.StartUpload(dir, filename, totalChunks, cid, openOk, now);
    if !started.Started? {
      return;
    }
    var id := started.key.1;
    ghost var created, f := agent.fs, agent.entries[(cid, id)].file;
    ghost var base := ContentAt(files, TempPath(final));
    while uploadedChunks < totalChunks
      invariant agent.Valid()
      invariant uploadedChunks <= totalChunks
      invariant uploadedChunks < totalChunks || file == [] ==>
        && (cid, id) in agent.entries
        && Describes(agent.entries[(cid, id)], dir, filename, totalChunks, f)
        && agent.fs == created.(data := created.data[f := base + Prefix(file, uploadedChunks)])
      invariant uploadedChunks == totalChunks && file != [] ==>
        && failsAfter == None && renameOk && final !in files.names
        && Arrived(agent.Value(), (cid, id), final, base + file)
    {
      var i := uploadedChunks;
      var last := i + 1 == totalChunks;
      var chunk := UM.Chunk(i, ChunkAt(file, i));
      ghost var before := agent.Value();
      var reply := agent.UploadFileChunk(cid, id, chunk, if last then failsAfter else None, renameOk, now);
      PrefixGrows(file, i);
      AppendMore(created, f, base, Prefix(file, i), chunk.data);
      if last {
        LastChunk(before, cid, id, chunk, failsAfter, renameOk, now);
        RenameFresh(files, created.(data := created.data[f := base + file]), f, final);
      } else {
        MiddleChunk(before, cid, id, chunk, renameOk, now);
      }
      if !reply.Acked? {
        return;
      }
      uploadedChunks := i + 1;
    }
  }
}
