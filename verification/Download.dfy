/** Downloads: the agent's table of open downloads, the browser's reassembly, and the
    theorem that together they reproduce the file.  Times are in milliseconds. */
module Download {
  import opened Protocol
  import opened Chunks
  import opened RemoteFiles

  const TIMEOUT: nat := 900_000

  // --- the agent ----------------------------------------------------------------------------

  datatype FileDownload = FileDownload(filename: string, totalSize: nat, totalChunks: nat, file: nat, lastUpdated: int)

  type Entries = map<TransferKey, FileDownload>

  /** `nextId` is the shared transfer counter. */
  datatype Table = Table(entries: Entries, nextId: nat) {
    ghost predicate Valid() {
      forall k :: k in entries ==> k.1 < nextId
    }
  }

  /** What the SFTP server makes of a call, beyond what the files determine. */
  datatype Fault = NoFault | SizeMissing | StatFails | OpenFails | SeekFails | ReadFails

  /** `Nothing` is the silent end of file. */
  datatype Reply =
    | Started(id: nat, totalSize: nat, totalChunks: nat)
    | Chunk(id: nat, index: nat, data: Bytes)
    | Failed(message: string)
    | Nothing

  predicate Abandoned(d: FileDownload, now: int) {
    now - d.lastUpdated > TIMEOUT
  }

  function Swept(entries: Entries, now: int): Entries {
    map k | k in entries && !Abandoned(entries[k], now) :: entries[k]
  }

  function WithoutCid(entries: Entries, cid: Uuid): Entries {
    map k | k in entries && k.0 != cid :: entries[k]
  }

  function Start(t: Table, fs: Files, dir: string, filename: string, cid: Uuid, fault: Fault, now: int): (Table,
                 Reply) {
    var path := FilePath(dir, filename);
    var entries := Swept(t.entries, now);
    if fault == StatFails || path !in fs.names || fs.names[path] !in fs.data then
      (Table(entries, t.nextId), Failed("Failed to get file metadata"))
    else if fault == OpenFails then
      (Table(entries, t.nextId), Failed("Failed to open file"))
    else
      var file := fs.names[path];
      var size := if fault == SizeMissing then 0 else |fs.data[file]|;
      var d := FileDownload(filename, size, TotalChunks(size), file, now);
      (Table(entries[(cid, t.nextId) := d], t.nextId + 1), Started(t.nextId, size, TotalChunks(size)))
  }

  /** A read fills the 64 KiB buffer or stops at the end of the file (section 6.4 of the
      SFTP draft). */
  function Read(fs: Files, file: nat, index: nat): Bytes {
    if file in fs.data then ChunkAt(fs.data[file], index) else []
  }

  function Fetch(t: Table, fs: Files, cid: Uuid, id: nat, index: nat, fault: Fault, now: int): (Table, Reply) {
    var k := (cid, id);
    if k !in t.entries then (t, Failed("Download not found or expired"))
    else if fault == SeekFails then (t.(entries := t.entries - {k}), Failed("Error seeking file"))
    else if fault == ReadFails then (t.(entries := t.entries - {k}), Failed("Error reading file"))
    else
      var data := Read(fs, t.entries[k].file, index);
      if data == [] then (t.(entries := t.entries - {k}), Nothing)
      else (t.(entries := t.entries[k := t.entries[k].(lastUpdated := now)]), Chunk(id, index, data))
  }

  /** The agent's `downloads` map and the transfer counter. */
  class DownloadTable {
    var entries: Entries
    var nextId: nat

    function Value(): Table
      reads this
    {
      Table(entries, nextId)
    }

    constructor ()
      ensures Value() == Table(map[], 1)
    {
      entries, nextId := map[], 1;
    }

    method GenerateId() returns (id: nat)
      modifies this
      ensures id == old(nextId) && Value() == Table(old(entries), id + 1)
    {
      id := nextId;
      nextId := nextId + 1;
    }

    /** Remove exactly the given entries, one by one. */
    method RemoveAll(keys: set<TransferKey>)
      modifies this
      ensures Value() == Table(old(entries) - keys, old(nextId))
    {
      var left := keys;
      while left != {}
        invariant left <= keys && nextId == old(nextId)
        invariant entries == old(entries) - (keys - left)
        decreases left
      {
        var k :| k in left;
        left := left - {k};
        entries := entries - {k};
        assert keys - left == (keys - (left + {k})) + {k};
      }
      assert keys - left == keys;
    }

    method CleanupAbandonedDownloads(now: int)
      modifies this
      ensures Value() == Table(Swept(old(entries), now), old(nextId))
    {
      RemoveAll(set k | k in entries && Abandoned(entries[k], now));
      assert entries == Swept(old(entries), now);
    }

    method CloseDownloadsForCid(cid: Uuid)
      modifies this
      ensures Value() == Table(WithoutCid(old(entries), cid), old(nextId))
    {
      RemoveAll(set k | k in entries && k.0 == cid);
      assert entries == WithoutCid(old(entries), cid);
    }

    method CloseAllDownloads()
      modifies this
      ensures Value() == Table(map[], old(nextId))
    {
      RemoveAll(entries.Keys);
      assert entries == map[];
    }

    method StartDownload(fs: Files, dir: string, filename: string, cid: Uuid, fault: Fault, now: int)
      returns (reply: Reply)
      modifies this
      ensures (Value(), reply) == Start(old(Value()), fs, dir, filename, cid, fault, now)
    {
      CleanupAbandonedDownloads(now);
      var path := FilePath(dir, filename);
      if fault == StatFails || path !in fs.names || fs.names[path] !in fs.data {
        return Failed("Failed to get file metadata");
      }
      var file := fs.names[path];
      var totalSize := if fault == SizeMissing then 0 else |fs.data[file]|;
      var totalChunks := TotalChunks(totalSize);
      if fault == OpenFails {
        return Failed("Failed to open file");
      }
      var id := GenerateId();
      entries := entries[(cid, id) := FileDownload(filename, totalSize, totalChunks, file, now)];
      reply := Started(id, totalSize, totalChunks);
    }

    method DownloadFileChunk(fs: Files, cid: Uuid, id: nat, index: nat, fault: Fault, now: int) returns (reply: Reply)
      modifies this
      ensures (Value(), reply) == Fetch(old(Value()), fs, cid, id, index, fault, now)
    {
      var k := (cid, id);
      var shouldRemove := false;
      if k in entries {
        if fault == SeekFails {
          reply := Failed("Error seeking file");
          shouldRemove := true;
        } else if fault == ReadFails {
          reply := Failed("Error reading file");
          shouldRemove := true;
        } else {
          var data := Read(fs, entries[k].file, index);
          if data == [] {
            reply := Nothing;
            shouldRemove := true;
          } else {
            entries := entries[k := entries[k].(lastUpdated := now)];
            reply := Chunk(id, index, data);
          }
        }
      } else {
        reply := Failed("Download not found or expired");
      }
      if shouldRemove {
        entries := entries - {k};
      }
    }
  }

  // --- the browser ----------------------------------------------------------------------------

  /** A missing count or size reads as 0, which JavaScript treats alike. */
  datatype Pending = Pending(filename: string, chunks: map<nat, Bytes>, totalChunks: nat, totalSize: nat, id: nat,
                             next: nat)

  datatype Outcome = Ignored | Saved(blob: Bytes) | Ask(id: nat, index: nat)

  predicate IsMax(m: nat, keys: set<nat>) {
    m in keys && forall k :: k in keys ==> k <= m
  }

  function Max(keys: set<nat>): (m: nat)
    requires keys != {}
    ensures IsMax(m, keys)
  {
    MaxExists(keys);
    var m :| IsMax(m, keys);
    m
  }

  lemma {:induction false} MaxExists(keys: set<nat>)
    requires keys != {}
    ensures exists m :: IsMax(m, keys)
  {
    var x :| x in keys;
    var rest := keys - {x};
    if rest == {} {
      assert keys == {x};
      assert IsMax(x, keys);
    } else {
      MaxExists(rest);
      var m :| IsMax(m, rest);
      assert keys == rest + {x};
      assert IsMax(if x > m then x else m, keys);
    }
  }

  /** The members of a set of indices in ascending order. */
  function Ascending(keys: set<nat>): (s: seq<nat>)
    ensures |s| == |keys|
    ensures forall i :: 0 <= i < |s| ==> s[i] in keys
  {
    if keys == {} then [] else Ascending(keys - {Max(keys)}) + [Max(keys)]
  }

  /** Sorting loses nothing and orders strictly. */
  lemma {:induction false} AscendingSorts(keys: set<nat>)
    ensures forall i, j :: 0 <= i < j < |keys| ==> Ascending(keys)[i] < Ascending(keys)[j]
    ensures forall k :: k in keys ==> k in Ascending(keys)
  {
    if keys != {} {
      var m, rest := Max(keys), keys - {Max(keys)};
      AscendingSorts(rest);
      var s, r := Ascending(keys), Ascending(rest);
      assert s == r + [m];
      forall i, j | 0 <= i < j < |keys| ensures s[i] < s[j] {
        if j == |r| {
          assert r[i] in rest;
        } else {
          assert s[i] == r[i] && s[j] == r[j];
        }
      }
      forall k | k in keys ensures k in s {
        assert k == m || k in rest;
      }
    }
  }

  function Select(chunks: map<nat, Bytes>, keys: seq<nat>): (parts: seq<Bytes>)
    requires forall i :: 0 <= i < |keys| ==> keys[i] in chunks
    ensures |parts| == |keys|
    ensures forall i :: 0 <= i < |keys| ==> parts[i] == chunks[keys[i]]
  {
    seq(|keys|, i requires 0 <= i < |keys| => chunks[keys[i]])
  }

  /** The chunks sorted by index and put one after the other. */
  function Assemble(chunks: map<nat, Bytes>): Bytes {
    Concat(Select(chunks, Ascending(chunks.Keys)))
  }

  /** The browser's `activeDownloads` map and the blobs it offered for saving. */
  class BrowserDownloads {
    var active: map<nat, Pending>
    var saved: seq<(string, Bytes)>
    var msgId: nat

    constructor ()
      ensures active == map[] && saved == [] && msgId == 0
    {
      active, saved, msgId := map[], [], 0;
    }

    method DownloadFile(filename: string) returns (m: nat)
      modifies this
      ensures m == old(msgId) && msgId == m + 1 && saved == old(saved)
      ensures active == old(active)[m := Pending(filename, map[], 0, 0, 0, 0)]
    {
      m := msgId;
      msgId := msgId + 1;
      active := active[m := Pending(filename, map[], 0, 0, 0, 0)];
    }

    method HandleStartResponse(m: nat, id: nat, totalSize: nat, totalChunks: nat) returns (o: Outcome)
      modifies this
      ensures m !in old(active) ==> o == Ignored && active == old(active)
      ensures m in old(active) ==>
        && o == Ask(id, 0)
        && active == old(active)[m := old(active)[m].(id := id, totalSize := totalSize, totalChunks := totalChunks,
                                                      next := 1)]
      ensures saved == old(saved) && msgId == old(msgId)
    {
      if m !in active {
        return Ignored;
      }
      active := active[m := active[m].(id := id, totalSize := totalSize, totalChunks := totalChunks, next := 0)];
      o := RequestNextChunk(m);
    }

    method RequestNextChunk(m: nat) returns (o: Outcome)
      modifies this
      ensures m !in old(active) ==> o == Ignored && active == old(active)
      ensures m in old(active) ==>
        && o == Ask(old(active)[m].id, old(active)[m].next)
        && active == old(active)[m := old(active)[m].(next := old(active)[m].next + 1)]
      ensures saved == old(saved) && msgId == old(msgId)
    {
      if m !in active {
        return Ignored;
      }
      o := Ask(active[m].id, active[m].next);
      active := active[m := active[m].(next := active[m].next + 1)];
    }

    method FinalizeDownload(m: nat) returns (o: Outcome)
      requires m in active
      modifies this
      ensures o == Saved(Assemble(old(active)[m].chunks))
      ensures saved == old(saved) + [(old(active)[m].filename, o.blob)]
      ensures active == old(active) - {m} && msgId == old(msgId)
    {
      var d := active[m];
      var sortedChunks := Select(d.chunks, Ascending(d.chunks.Keys));
      o := Saved(Concat(sortedChunks));
      saved := saved + [(d.filename, o.blob)];
      active := active - {m};
    }

    method HandleDownloadChunk(m: nat, index: nat, data: Bytes) returns (o: Outcome)
      modifies this
      ensures m !in old(active) ==> o == Ignored && active == old(active) && saved == old(saved)
      ensures m in old(active) ==>
        var (d, out) := Receive(old(active)[m], index, data);
        && o == out
        && (if out.Saved? then active == old(active) - {m} && saved == old(saved) + [(d.filename, out.blob)]
            else active == old(active)[m := d] && saved == old(saved))
      ensures msgId == old(msgId)
    {
      hide Assemble, Ascending, Concat;
      if m !in active {
        return Ignored;
      }
      if active[m].totalChunks == 0 || active[m].totalSize == 0 {
        return Ignored;
      }
      active := active[m := active[m].(chunks := active[m].chunks[index := data])];
      if |active[m].chunks| == active[m].totalChunks {
        o := FinalizeDownload(m);
      } else {
        o := RequestNextChunk(m);
      }
    }
  }

  function Receive(d: Pending, index: nat, data: Bytes): (Pending, Outcome) {
    if d.totalChunks == 0 || d.totalSize == 0 then (d, Ignored) else
      var d' := d.(chunks := d.chunks[index := data]);
      if |d'.chunks| == d'.totalChunks then (d', Saved(Assemble(d'.chunks)))
      else (d'.(next := d'.next + 1), Ask(d'.id, d'.next))
  }

  // --- reassembly in any order ------------------------------------------------------------------

  datatype Progress = Waiting(d: Pending) | Done(blob: Bytes)

  /** After the blob is saved the browser no longer knows the download. */
  function Arrive(p: Progress, index: nat, data: Bytes): Progress {
    match p
    case Done(_) => p
    case Waiting(d) =>
      var (d', out) := Receive(d, index, data);
      if out.Saved? then Done(out.blob) else Waiting(d')
  }

  /** Chunks of `file` arrive, in the order of `indices`. */
  function Feed(p: Progress, file: Bytes, indices: seq<nat>): Progress {
    if indices == [] then p
    else
      var last := indices[|indices| - 1];
      Arrive(Feed(p, file, indices[..|indices| - 1]), last, ChunkAt(file, last))
  }

  ghost predicate Covers(indices: seq<nat>, n: nat) {
    forall i: nat :: i < n ==> i in indices
  }

  function UpTo(n: nat): (s: set<nat>)
    ensures |s| == n
    ensures forall i :: i in s <==> 0 <= i < n
  {
    if n == 0 then {} else UpTo(n - 1) + {n - 1}
  }

  lemma {:induction false} SubsetSize(a: set<nat>, b: set<nat>)
    requires a <= b
    ensures |a| <= |b|
    ensures |a| == |b| ==> a == b
  {
    if a != {} {
      var x :| x in a;
      SubsetSize(a - {x}, b - {x});
      assert a == (a - {x}) + {x} && b == (b - {x}) + {x};
    }
  }

  /** Holding as many chunks as the file has means holding all of them, and only then. */
  lemma Pigeonhole(keys: set<nat>, n: nat)
    requires forall i :: i in keys ==> i < n
    ensures |keys| == n <==> forall i: nat :: i < n ==> i in keys
  {
    assert keys <= UpTo(n);
    SubsetSize(keys, UpTo(n));
    if forall i: nat :: i < n ==> i in keys {
      assert keys == UpTo(n);
    }
  }

  function FirstN(n: nat): (s: seq<nat>)
    ensures |s| == n && forall i :: 0 <= i < n ==> s[i] == i
  {
    seq(n, i => i)
  }

  lemma {:induction false} AscendingUpTo(n: nat)
    ensures Ascending(UpTo(n)) == FirstN(n)
  {
    hide UpTo;
    if n > 0 {
      AscendingUpTo(n - 1);
      var top := Max(UpTo(n));
      assert IsMax(top, UpTo(n)) && n - 1 in UpTo(n) && top == n - 1;
      assert UpTo(n) - {n - 1} == UpTo(n - 1);
      assert FirstN(n) == FirstN(n - 1) + [n - 1];
    }
  }

  /** All chunks of a file, sorted by index and concatenated, are the file. */
  lemma AssembleFile(file: Bytes, chunks: map<nat, Bytes>)
    requires chunks.Keys == UpTo(CeilDiv(|file|))
    requires forall i :: i in chunks ==> chunks[i] == ChunkAt(file, i)
    ensures Assemble(chunks) == file
  {
    hide Ascending, Concat, UpTo, ChunkAt, CeilDiv;
    var n := CeilDiv(|file|);
    AscendingUpTo(n);
    assert Select(chunks, Ascending(chunks.Keys)) == Split(file, n);
    ChunksTile(file);
  }

  /** The download has been started for `file`, and nothing has arrived. */
  ghost predicate Fresh(d: Pending, file: Bytes) {
    && 1 <= |file| <= U32_MAX * CHUNK_SIZE
    && d.totalSize == |file| && d.totalChunks == TotalChunks(|file|)
    && d.chunks == map[]
  }

  ghost predicate InRange(indices: seq<nat>, file: Bytes) {
    forall i :: i in indices ==> i < CeilDiv(|file|)
  }

  /** Whatever the order and the repeats, the browser saves exactly once every chunk has
      arrived, and what it saves is the file; until then it holds exactly what arrived. */
  lemma {:induction false} Reassembly(d: Pending, file: Bytes, indices: seq<nat>)
    requires Fresh(d, file) && InRange(indices, file)
    ensures Covers(indices, CeilDiv(|file|)) ==> Feed(Waiting(d), file, indices) == Done(file)
    ensures !Covers(indices, CeilDiv(|file|)) ==>
      var p := Feed(Waiting(d), file, indices);
      && p.Waiting? && p.d.totalSize == d.totalSize && p.d.totalChunks == d.totalChunks
      && (forall i :: i in p.d.chunks <==> i in indices)
      && (forall i :: i in p.d.chunks ==> p.d.chunks[i] == ChunkAt(file, i))
  {
    var n := CeilDiv(|file|);
    TotalChunksExactIff(|file|);
    if indices == [] {
      assert 0 !in indices;
    } else {
      var init, last := indices[..|indices| - 1], indices[|indices| - 1];
      assert indices == init + [last];
      forall i | i in init ensures i < n {
        assert i in indices;
      }
      Reassembly(d, file, init);
      if !Covers(init, n) {
        var before := Feed(Waiting(d), file, init).d;
        var chunks := before.chunks[last := ChunkAt(file, last)];
        assert forall i :: i in chunks <==> i in indices;
        Pigeonhole(chunks.Keys, n);
        assert |chunks| == |chunks.Keys|;
        if |chunks| == n {
          assert chunks.Keys == UpTo(n);
          AssembleFile(file, chunks);
        }
      }
    }
  }

  // --- the agent serving requests among other commands --------------------------------------------

  datatype Event =
    | OnStart(fs: Files, dir: string, filename: string, cid: Uuid, fault: Fault, now: int)
    | OnFetch(fs: Files, cid: Uuid, id: nat, index: nat, fault: Fault, now: int)
    | OnSweep(now: int)
    | OnClose(cid: Uuid)
    | OnShutdown
    | OnUploadStart  // draws an id from the shared counter

  function Apply(t: Table, e: Event): (Table, Reply) {
    match e
    case OnStart(fs, dir, filename, cid, fault, now) => Start(t, fs, dir, filename, cid, fault, now)
    case OnFetch(fs, cid, id, index, fault, now) => Fetch(t, fs, cid, id, index, fault, now)
    case OnSweep(now) => (t.(entries := Swept(t.entries, now)), Nothing)
    case OnClose(cid) => (t.(entries := WithoutCid(t.entries, cid)), Nothing)
    case OnShutdown => (t.(entries := map[]), Nothing)
    case OnUploadStart => (t.(nextId := t.nextId + 1), Nothing)
  }

  lemma ApplyValid(t: Table, e: Event)
    requires t.Valid()
    ensures Apply(t, e).0.Valid()
  {
  }

  /** The agent and one download of the browser, with every reply for that download
      reaching the browser in order. */
  function Serve(t: Table, p: Progress, key: TransferKey, es: seq<Event>): (Table, Progress)
    decreases es
  {
    if es == [] then (t, p)
    else
      var (t', reply) := Apply(t, es[0]);
      var p' := if IsFetch(es[0], key) && reply.Chunk? then Arrive(p, reply.index, reply.data) else p;
      Serve(t', p', key, es[1..])
  }

  predicate IsFetch(e: Event, key: TransferKey) {
    e.OnFetch? && (e.cid, e.id) == key
  }

  /** The chunk indices asked for the download, in order. */
  function Requests(es: seq<Event>, key: TransferKey): seq<nat> {
    if es == [] then []
    else (if IsFetch(es[0], key) then [es[0].index] else []) + Requests(es[1..], key)
  }

  /** The file stays as it was, no SFTP call for this download fails, sweeps come at most
      15 minutes after its latest request, and its connection stays. */
  ghost predicate Undisturbed(es: seq<Event>, key: TransferKey, inode: nat, file: Bytes, latest: int) {
    es == [] || match es[0] {
      case OnStart(_, _, _, _, _, now) => now - latest <= TIMEOUT && Undisturbed(es[1..], key, inode, file, latest)
      case OnSweep(now) => now - latest <= TIMEOUT && Undisturbed(es[1..], key, inode, file, latest)
      case OnFetch(fs, cid, id, index, fault, now) =>
        if (cid, id) == key then
          && inode in fs.data && fs.data[inode] == file && fault == NoFault
          && Undisturbed(es[1..], key, inode, file, now)
        else Undisturbed(es[1..], key, inode, file, latest)
      case OnClose(cid) => cid != key.0 && Undisturbed(es[1..], key, inode, file, latest)
      case OnShutdown => false
      case OnUploadStart => Undisturbed(es[1..], key, inode, file, latest)
    }
  }

  /** Other traffic does not touch the entry of an undisturbed download. */
  lemma EntryKept(t: Table, e: Event, key: TransferKey, file: Bytes)
    requires t.Valid() && key in t.entries && !IsFetch(e, key)
    requires Undisturbed([e], key, t.entries[key].file, file, t.entries[key].lastUpdated)
    ensures key in Apply(t, e).0.entries && Apply(t, e).0.entries[key] == t.entries[key]
  {
  }

  /** A request in range is answered with its chunk. */
  lemma FetchAnswers(t: Table, e: Event, key: TransferKey, file: Bytes)
    requires key in t.entries && IsFetch(e, key) && e.index < CeilDiv(|file|)
    requires Undisturbed([e], key, t.entries[key].file, file, t.entries[key].lastUpdated)
    ensures Apply(t, e).1 == Chunk(key.1, e.index, ChunkAt(file, e.index))
    ensures Apply(t, e).0.entries == t.entries[key := t.entries[key].(lastUpdated := e.now)]
  {
    ChunksTile(file);
    assert ChunkAt(file, e.index) != [];
  }

  /** The requests before the first one past the end. */
  function InTime(requests: seq<nat>, n: nat): (r: seq<nat>)
    ensures forall i :: i in r ==> i < n
  {
    if requests == [] || requests[0] >= n then [] else [requests[0]] + InTime(requests[1..], n)
  }

  /** A request past the end is answered by silence, and the entry goes. */
  lemma FetchEnds(t: Table, e: Event, key: TransferKey, file: Bytes)
    requires t.Valid() && key in t.entries && IsFetch(e, key) && e.index >= CeilDiv(|file|)
    requires Undisturbed([e], key, t.entries[key].file, file, t.entries[key].lastUpdated)
    ensures !Apply(t, e).1.Chunk? && key !in Apply(t, e).0.entries && key.1 < Apply(t, e).0.nextId
  {
    assert ChunkAt(file, e.index) == [];
  }

  lemma InTimeStep(es: seq<Event>, key: TransferKey, seen: seq<nat>, n: nat)
    requires es != []
    ensures
      var all, rest := InTime(Requests(es, key), n), InTime(Requests(es[1..], key), n);
      if !IsFetch(es[0], key) then all == rest
      else if es[0].index >= n then all == []
      else seen + all == (seen + [es[0].index]) + rest
  {
    if IsFetch(es[0], key) {
      assert Requests(es, key)[1..] == Requests(es[1..], key);
    } else {
      assert Requests(es, key) == Requests(es[1..], key);
    }
  }

  lemma FeedSnoc(p: Progress, file: Bytes, seen: seq<nat>, i: nat)
    ensures Feed(p, file, seen + [i]) == Arrive(Feed(p, file, seen), i, ChunkAt(file, i))
  {
    assert (seen + [i])[..|seen|] == seen;
  }

  /** The browser is fed the chunks asked for in time, and no others. */
  lemma {:induction false} ServeFeeds(t: Table, d: Pending, seen: seq<nat>, file: Bytes, key: TransferKey,
                                      es: seq<Event>)
    requires t.Valid() && key in t.entries
    requires Undisturbed(es, key, t.entries[key].file, file, t.entries[key].lastUpdated)
    ensures Serve(t, Feed(Waiting(d), file, seen), key, es).1
            == Feed(Waiting(d), file, seen + InTime(Requests(es, key), CeilDiv(|file|)))
    decreases es
  {
    hide ChunkAt, Apply, CeilDiv, Arrive, Feed, InTime, Requests;
    var n := CeilDiv(|file|);
    if es == [] {
      NothingAsked(key, n);
      assert seen + [] == seen;
    } else {
      var e, rest := es[0], es[1..];
      var t' := Apply(t, e).0;
      ApplyValid(t, e);
      InTimeStep(es, key, seen, n);
      if !IsFetch(e, key) {
        assert Undisturbed([e], key, t.entries[key].file, file, t.entries[key].lastUpdated);
        EntryKept(t, e, key, file);
        ServeFeeds(t', d, seen, file, key, rest);
      } else if e.index < n {
        FetchAnswers(t, e, key, file);
        FeedSnoc(Waiting(d), file, seen, e.index);
        ServeFeeds(t', d, seen + [e.index], file, key, rest);
      } else {
        FetchEnds(t, e, key, file);
        GoneStaysGone(t', Feed(Waiting(d), file, seen), key, rest);
        assert seen + [] == seen;
      }
    }
  }

  lemma NothingAsked(key: TransferKey, n: nat)
    ensures InTime(Requests([], key), n) == []
  {
  }

  /** From an agent that has opened a file to the blob in the browser: under every
      interleaving with other transfers, sweeps and connections, the browser ends up with
      the file if and only if every chunk was asked for before anything past the end was. */
  lemma DownloadEndToEnd(t: Table, fs: Files, dir: string, filename: string, cid: Uuid, now: int, file: Bytes,
                         d: Pending, es: seq<Event>)
    requires t.Valid() && fs.Valid()
    requires FilePath(dir, filename) in fs.names && fs.data[fs.names[FilePath(dir, filename)]] == file
    requires 1 <= |file| <= U32_MAX * CHUNK_SIZE && d.chunks == map[]
    requires Undisturbed(es, (cid, t.nextId), fs.names[FilePath(dir, filename)], file, now)
    ensures
      var (t', reply) := Start(t, fs, dir, filename, cid, NoFault, now);
      var key := (cid, t.nextId);
      var asked := InTime(Requests(es, key), CeilDiv(|file|));
      && reply == Started(t.nextId, |file|, CeilDiv(|file|))
      && var begun := d.(id := reply.id, totalSize := reply.totalSize, totalChunks := reply.totalChunks, next := 1);
      && (Covers(asked, CeilDiv(|file|)) ==> Serve(t', Waiting(begun), key, es).1 == Done(file))
      && (!Covers(asked, CeilDiv(|file|)) ==> Serve(t', Waiting(begun), key, es).1.Waiting?)
  {
    TotalChunksExactIff(|file|);
    var (t', reply) := Start(t, fs, dir, filename, cid, NoFault, now);
    var key := (cid, t.nextId);
    var begun := d.(id := reply.id, totalSize := reply.totalSize, totalChunks := reply.totalChunks, next := 1);
    var asked := InTime(Requests(es, key), CeilDiv(|file|));
    hide Start, Serve, Requests, InTime, Undisturbed;
    EntryStarted(t, fs, dir, filename, cid, now);
    ServeFeeds(t', begun, [], file, key, es);
    assert [] + asked == asked;
    Reassembly(begun, file, asked);
  }

  lemma EntryStarted(t: Table, fs: Files, dir: string, filename: string, cid: Uuid, now: int)
    requires t.Valid() && fs.Valid() && FilePath(dir, filename) in fs.names
    ensures
      var (t', reply) := Start(t, fs, dir, filename, cid, NoFault, now);
      var file := fs.names[FilePath(dir, filename)];
      && t'.Valid() && (cid, t.nextId) in t'.entries
      && t'.entries[(cid, t.nextId)].file == file && t'.entries[(cid, t.nextId)].lastUpdated == now
      && reply == Started(t.nextId, |fs.data[file]|, TotalChunks(|fs.data[file]|))
  {
  }

  /** Once the browser has saved the file, nothing that happens on the agent matters to it. */
  lemma {:induction false} DoneStaysDone(t: Table, file: Bytes, key: TransferKey, es: seq<Event>)
    ensures Serve(t, Done(file), key, es).1 == Done(file)
    decreases es
  {
    hide Apply;
    if es != [] {
      DoneStaysDone(Apply(t, es[0]).0, file, key, es[1..]);
    }
  }

  /** Asking past the end is answered by silence and ends the download: every later
      request for it fails. */
  lemma PastTheEnd(t: Table, fs: Files, cid: Uuid, id: nat, index: nat, now: int)
    requires (cid, id) in t.entries && t.entries[(cid, id)].file in fs.data
    ensures var (t', reply) := Fetch(t, fs, cid, id, index, NoFault, now);
      (reply == Nothing && t'.entries == t.entries - {(cid, id)})
        <==> index >= CeilDiv(|fs.data[t.entries[(cid, id)].file]|)
  {
    ChunksTile(fs.data[t.entries[(cid, id)].file]);
  }

  /** The ids of finished or failed downloads never come back. */
  lemma {:induction false} GoneStaysGone(t: Table, p: Progress, key: TransferKey, es: seq<Event>)
    requires t.Valid() && key.1 < t.nextId && key !in t.entries
    ensures key !in Serve(t, p, key, es).0.entries && Serve(t, p, key, es).1 == p
    decreases es
  {
    if es != [] {
      ApplyValid(t, es[0]);
      GoneStaysGone(Apply(t, es[0]).0, p, key, es[1..]);
    }
  }

  // --- transfer ids --------------------------------------------------------------------------------

  /** The ids given out by a run, to downloads and, unnamed, to uploads. */
  function Given(t: Table, es: seq<Event>): seq<nat>
    decreases es
  {
    if es == [] then []
    else
      var (t', reply) := Apply(t, es[0]);
      (if reply.Started? then [reply.id] else []) + Given(t', es[1..])
  }

  /** Ids go up, so none is ever given out twice, whatever finishes or is swept in between. */
  lemma {:induction false} IdsNeverRepeat(t: Table, es: seq<Event>)
    ensures forall i :: 0 <= i < |Given(t, es)| ==> t.nextId <= Given(t, es)[i]
    ensures forall i, j :: 0 <= i < j < |Given(t, es)| ==> Given(t, es)[i] < Given(t, es)[j]
    decreases es
  {
    if es != [] {
      var (t', reply) := Apply(t, es[0]);
      CounterGrows(t, es[0]);
      hide Apply;
      IdsNeverRepeat(t', es[1..]);
    }
  }

  lemma CounterGrows(t: Table, e: Event)
    ensures t.nextId <= Apply(t, e).0.nextId
    ensures Apply(t, e).1.Started? ==> Apply(t, e).1.id == t.nextId < Apply(t, e).0.nextId
  {
  }

  // --- the browser's own request order ----------------------------------------------------------------

  /** The browser asks for chunk 0 and then, on every chunk, for the next one: the answer
      to request `k` makes it ask for chunk `k + 1`, or, after the last chunk, save the
      file.  So it never asks past the end. */
  lemma {:induction false} SequentialRequests(d: Pending, file: Bytes, k: nat)
    requires Fresh(d, file) && d.next == 1
    requires k < CeilDiv(|file|)
    ensures
      var p := Feed(Waiting(d), file, FirstN(k));
      && p.Waiting? && p.d.next == k + 1 && p.d.id == d.id
      && Receive(p.d, k, ChunkAt(file, k)).1 == if k + 1 == CeilDiv(|file|) then Saved(file) else Ask(d.id, k + 1)
  {
    hide ChunkAt, Ascending, Assemble, CeilDiv, TotalChunks, Feed, FirstN;
    if k > 0 {
      SequentialRequests(d, file, k - 1);
      FeedOne(d, file, k - 1);
    } else {
      FeedNone(d, file);
    }
    SequentialFeed(d, file, k);
    SequentialFeed(d, file, k + 1);
    FeedOne(d, file, k);
  }

  lemma FeedNone(d: Pending, file: Bytes)
    ensures Feed(Waiting(d), file, FirstN(0)) == Waiting(d)
  {
  }

  lemma FeedOne(d: Pending, file: Bytes, k: nat)
    ensures Feed(Waiting(d), file, FirstN(k + 1)) == Arrive(Feed(Waiting(d), file, FirstN(k)), k, ChunkAt(file, k))
  {
    assert FirstN(k + 1)[..k] == FirstN(k);
  }

  lemma SequentialFeed(d: Pending, file: Bytes, k: nat)
    requires Fresh(d, file) && k <= CeilDiv(|file|)
    ensures k == CeilDiv(|file|) ==> Feed(Waiting(d), file, FirstN(k)) == Done(file)
    ensures k < CeilDiv(|file|) ==>
      var p := Feed(Waiting(d), file, FirstN(k));
      p.Waiting? && p.d.totalChunks == CeilDiv(|file|) && p.d.totalSize > 0
  {
    hide ChunkAt, Ascending, Assemble, CeilDiv, TotalChunks, Feed;
    TotalChunksExactIff(|file|);
    Reassembly(d, file, FirstN(k));
    forall i: nat | i < k ensures i in FirstN(k) {
      assert FirstN(k)[i] == i;
    }
    assert k !in FirstN(k);
  }

  /** An empty file has no chunks: whatever arrives is ignored, and nothing is ever saved. */
  lemma {:induction false} EmptyFileNeverSaved(d: Pending, arrivals: seq<(nat, Bytes)>)
    requires d.totalChunks == TotalChunks(0)
    ensures FeedAny(Waiting(d), arrivals) == Waiting(d)
  {
    TotalChunksExactIff(0);
    if arrivals != [] {
      EmptyFileNeverSaved(d, arrivals[..|arrivals| - 1]);
    }
  }

  function FeedAny(p: Progress, arrivals: seq<(nat, Bytes)>): Progress {
    if arrivals == [] then p
    else
      var last := arrivals[|arrivals| - 1];
      Arrive(FeedAny(p, arrivals[..|arrivals| - 1]), last.0, last.1)
  }
}
