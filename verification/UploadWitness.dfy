/** A concrete upload: the hypotheses of the commit theorem can be met. */
module UploadWitness {
  import opened Protocol
  import opened Chunks
  import opened RemoteFiles
  import UM = UploadModel
  import opened UploadModel
  import opened UploadInvariants
  import opened UploadTheorems

  function OpenIt(cid: Uuid, dir: string, filename: string): Event {
    Open(0, cid, dir, filename, 1, true)
  }

  /** The upload in the table, with what its temporary file holds. */
  function Stored(cid: Uuid, dir: string, filename: string, content: Bytes): State {
    var temp := TempPath(FilePath(dir, filename));
    var u := FileUpload(filename, dir, 1, 0, 0, temp, 0);
    State(Table(map[(cid, 1) := u], 2, Files(map[temp := 0], map[0 := content], 1), 1, multiset{}), map[])
  }

  lemma Starts(cid: Uuid, dir: string, filename: string)
    ensures
      var s1 := Step(START, OpenIt(cid, dir, filename)).0;
      && 0 in s1.tasks && s1.tasks[0].Opened?
      && Alone(START, MineOf(s1.tasks[0].upload))
      && Step(s1, Insert(0, 0)) == (Stored(cid, dir, filename, []), Started((cid, 1)))
  {
    hide FilePath, TempPath;
    var s1 := Step(START, OpenIt(cid, dir, filename)).0;
    var s2 := Step(s1, Insert(0, 0)).0;
    assert s2.tasks == map[] && s2.t == Stored(cid, dir, filename, []).t;
  }

  function SendIt(cid: Uuid, file: Bytes): seq<Event> {
    [Begin(0, cid, 1, UM.Chunk(0, file)), Take(0), WriteLast(0, None)]
  }

  lemma Run1(s: State, e: Event)
    ensures Run(s, [e]) == Step(s, e).0
  {
    hide Step;
    assert [e][..0] == [];
    assert Run(s, []) == s;
  }

  lemma RunNext(s: State, es: seq<Event>, e: Event)
    ensures Run(s, es + [e]) == Step(Run(s, es), e).0
  {
    hide Step;
    assert (es + [e])[..|es|] == es;
  }

  /** The file is written, the table entry taken, and the rename is next. */
  lemma Writes(cid: Uuid, dir: string, filename: string, file: Bytes)
    ensures
      var stored := Stored(cid, dir, filename, []);
      var s := Run(stored, SendIt(cid, file));
      && s.t == Stored(cid, dir, filename, file).t.(entries := map[])
      && s.tasks == map[0 := Written((cid, 1), stored.t.entries[(cid, 1)], UM.Chunk(0, file))]
  {
    hide FilePath, TempPath;
    var s0, es := Stored(cid, dir, filename, []), SendIt(cid, file);
    var u := s0.t.entries[(cid, 1)];
    var s1 := Step(s0, es[0]).0;
    assert s1.tasks == map[0 := Checked((cid, 1), UM.Chunk(0, file), true)];
    var s2 := Step(s1, es[1]).0;
    assert s2.tasks == map[0 := Taken((cid, 1), u, UM.Chunk(0, file))] && s2.t.entries == map[];
    var s3 := Step(s2, es[2]).0;
    assert s3.tasks == map[0 := Written((cid, 1), u, UM.Chunk(0, file))];
    assert [] + file == file;
    assert s3.t.fs.data == map[0 := file];
    Run1(s0, es[0]);
    assert [es[0]] + [es[1]] == es[..2] && es[..2] + [es[2]] == es;
    RunNext(s0, [es[0]], es[1]);
    RunNext(s0, es[..2], es[2]);
  }

  /** The browser's part is stop-and-wait: it sends its only chunk before any answer. */
  lemma Waits(cid: Uuid, dir: string, filename: string, file: Bytes)
    requires 1 <= |file| <= CHUNK_SIZE
    ensures StopAndWait(Stored(cid, dir, filename, []), SendIt(cid, file) + [RenameTemp(0, true)], (cid, 1), file)
  {
    hide Step, FilePath, TempPath, Acks, Begins, Run, ChunkAt;
    var s, key := Stored(cid, dir, filename, []), (cid, 1);
    var all := SendIt(cid, file) + [RenameTemp(0, true)];
    assert all[..3] == SendIt(cid, file) && all[..3][..2] == all[..2] && all[..2][..1] == all[..1]
      && all[..1][..0] == [];
    OnlyChunk(file);
    Nothing0(s, key);
    assert StopAndWait(s, all[..1][..0], key, file);
    assert StopAndWait(s, all[..1], key, file);
    assert StopAndWait(s, all[..2], key, file);
    assert StopAndWait(s, all[..3], key, file);
  }

  lemma OnlyChunk(file: Bytes)
    requires 1 <= |file| <= CHUNK_SIZE
    ensures CeilDiv(|file|) == 1 && ChunkAt(file, 0) == file
  {
  }

  lemma Nothing0(s: State, key: TransferKey)
    ensures Acks(s, [], key) == 0 && Begins(s, [], key) == 0
  {
  }

  /** From the empty agent, any file of one chunk can be uploaded to any path in just the way
      UploadTheorems.UploadCommits asks for, and it is committed. */
  lemma OneChunkCommits(cid: Uuid, dir: string, filename: string, file: Bytes)
    requires 1 <= |file| <= CHUNK_SIZE
    ensures
      var final := FilePath(dir, filename);
      var stored := Stored(cid, dir, filename, []);
      var (end, out) := Step(Run(stored, SendIt(cid, file)), RenameTemp(0, true));
      && out == Acked((cid, 1), 0, true)
      && end.t.fs.Valid() && final in end.t.fs.names && ContentAt(end.t.fs, final) == file
      && TempPath(final) !in end.t.fs.names
  {
    StartKeeps();
    Starts(cid, dir, filename);
    Writes(cid, dir, filename, file);
    Waits(cid, dir, filename, file);
    OnlyChunk(file);
    Renames(cid, dir, filename, file);
    hide StopAndWait, Dead, Inv, Alone, FilePath, TempPath, Run, Acks, Begins, FinalPath;
    var s1 := Step(START, OpenIt(cid, dir, filename)).0;
    assert Run(s1, []) == s1 by { RunNone(s1); }
    assert [] + file == file;
    UploadCommits(START, OpenIt(cid, dir, filename), [], 0, SendIt(cid, file), RenameTemp(0, true), file);
  }

  lemma RunNone(s: State)
    ensures Run(s, []) == s
  {
  }

  lemma Renames(cid: Uuid, dir: string, filename: string, file: Bytes)
    ensures
      var stored := Stored(cid, dir, filename, []);
      Step(Run(stored, SendIt(cid, file)), RenameTemp(0, true)).1 == Acked((cid, 1), 0, true)
  {
    Writes(cid, dir, filename, file);
    hide Run;
    assert |TempPath(FilePath(dir, filename))| == |FilePath(dir, filename)| + 4;
    hide FilePath, TempPath;
  }
}
