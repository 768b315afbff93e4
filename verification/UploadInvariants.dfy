/** The invariant of the upload table and its handles holds in every reachable state. */
module UploadInvariants {
  import opened Protocol
  import opened RemoteFiles
  import opened UploadModel

  // --- handles ------------------------------------------------------------------------------

  /** The handles held are the same before and after. */
  lemma HandlesSame(e: Entries, p: Tasks, e': Entries, p': Tasks, issued: nat, closed: multiset<nat>)
    requires HandlesOk(e, p, issued, closed)
    requires HeldOnce(e', p', issued)
    requires forall h: nat :: Held(e, p, h) <==> Held(e', p', h)
    ensures HandlesOk(e', p', issued, closed)
  {
  }

  lemma OpenHandle(e: Entries, p: Tasks, issued: nat, closed: multiset<nat>, task: nat, c: Task)
    requires HandlesOk(e, p, issued, closed) && task !in p && Holds(c, issued)
    ensures HandlesOk(e, p[task := c], issued + 1, closed)
  {
    var p' := p[task := c];
    forall h: nat ensures Held(e, p', h) <==> Held(e, p, h) || h == issued {
      if h == issued {
        assert Holds(p'[task], h);
      } else if Held(e, p, h) && exists i :: i in p && Holds(p[i], h) {
        var i :| i in p && Holds(p[i], h);
        assert i in p' && Holds(p'[i], h);
      }
    }
    assert closed[issued] == 0;
  }

  /** A task's upload moves into the table. */
  lemma StoreHandle(e: Entries, p: Tasks, issued: nat, closed: multiset<nat>, task: nat, key: TransferKey,
                    u: FileUpload)
    requires HandlesOk(e, p, issued, closed)
    requires task in p && Holds(p[task], u.handle) && key !in e
    ensures HandlesOk(e[key := u], p - {task}, issued, closed)
  {
    var e', p' := e[key := u], p - {task};
    forall h: nat ensures Held(e', p', h) <==> Held(e, p, h) {
      if h == u.handle {
        assert e'[key].handle == h && Holds(p[task], h);
      } else {
        assert forall k :: k in e ==> k in e' && e'[k] == e[k];
        assert forall i :: i in p && Holds(p[i], h) ==> i in p';
      }
    }
    HandlesSame(e, p, e', p', issued, closed);
  }

  /** An upload moves from the table into a task that held none. */
  lemma TakeHandle(e: Entries, p: Tasks, issued: nat, closed: multiset<nat>, task: nat, key: TransferKey, c: Task)
    requires HandlesOk(e, p, issued, closed)
    requires task in p && p[task].Checked? && key in e && Holds(c, e[key].handle)
    ensures HandlesOk(e - {key}, p[task := c], issued, closed)
  {
    var e', p' := e - {key}, p[task := c];
    forall h: nat ensures Held(e', p', h) <==> Held(e, p, h) {
      if h == e[key].handle {
        assert Holds(p'[task], h);
      } else {
        assert forall k :: k in e && e[k].handle == h ==> k in e';
        assert forall i :: i in p && Holds(p[i], h) ==> i in p' && Holds(p'[i], h);
        assert forall i :: i in p' && Holds(p'[i], h) ==> i in p && Holds(p[i], h);
      }
    }
    HandlesSame(e, p, e', p', issued, closed);
  }

  lemma KeepHandle(e: Entries, p: Tasks, issued: nat, closed: multiset<nat>, task: nat, c: Task)
    requires HandlesOk(e, p, issued, closed)
    requires task in p && !p[task].Checked? && Holds(c, p[task].upload.handle)
    ensures HandlesOk(e, p[task := c], issued, closed)
  {
    var p' := p[task := c];
    forall h: nat ensures Held(e, p', h) <==> Held(e, p, h) {
      assert forall i :: i in p <==> i in p';
      assert forall i :: i in p ==> (Holds(p[i], h) <==> Holds(p'[i], h));
    }
    HandlesSame(e, p, e, p', issued, closed);
  }

  /** Tasks that hold no handle come and go. */
  lemma CheckedTask(e: Entries, p: Tasks, issued: nat, closed: multiset<nat>, task: nat, c: Task)
    requires HandlesOk(e, p, issued, closed)
    requires task in p ==> p[task].Checked?
    requires c.Checked?
    ensures HandlesOk(e, p[task := c], issued, closed)
    ensures HandlesOk(e, p - {task}, issued, closed)
  {
    var p', p'' := p[task := c], p - {task};
    forall h: nat ensures (Held(e, p', h) <==> Held(e, p, h)) && (Held(e, p'', h) <==> Held(e, p, h)) {
      assert forall i :: i in p && Holds(p[i], h) ==> i in p' && Holds(p'[i], h) && i in p'' && Holds(p''[i], h);
    }
    HandlesSame(e, p, e, p', issued, closed);
    HandlesSame(e, p, e, p'', issued, closed);
  }

  lemma TouchEntry(e: Entries, p: Tasks, issued: nat, closed: multiset<nat>, key: TransferKey, u: FileUpload)
    requires HandlesOk(e, p, issued, closed)
    requires key in e && u.handle == e[key].handle
    ensures HandlesOk(e[key := u], p, issued, closed)
  {
    var e' := e[key := u];
    forall h: nat ensures Held(e', p, h) <==> Held(e, p, h) {
      assert forall k :: k in e <==> k in e';
      assert forall k :: k in e ==> e[k].handle == e'[k].handle;
    }
    HandlesSame(e, p, e', p, issued, closed);
  }

  lemma CloseTask(e: Entries, p: Tasks, issued: nat, closed: multiset<nat>, task: nat)
    requires HandlesOk(e, p, issued, closed)
    requires task in p && !p[task].Checked?
    ensures HandlesOk(e, p - {task}, issued, closed + multiset{p[task].upload.handle})
  {
    var p', g := p - {task}, p[task].upload.handle;
    assert Holds(p[task], g);
    forall h: nat ensures Held(e, p', h) <==> Held(e, p, h) && h != g {
      assert forall i :: i in p && Holds(p[i], h) && i != task ==> i in p';
    }
  }

  lemma CloseEntry(e: Entries, p: Tasks, issued: nat, closed: multiset<nat>, key: TransferKey)
    requires HandlesOk(e, p, issued, closed)
    requires key in e
    ensures HandlesOk(e - {key}, p, issued, closed + multiset{e[key].handle})
  {
    var e', g := e - {key}, e[key].handle;
    forall h: nat ensures Held(e', p, h) <==> Held(e, p, h) && h != g {
      assert forall k :: k in e && e[k].handle == h && k != key ==> k in e';
    }
  }

  // --- files ------------------------------------------------------------------------------------

  lemma CreateValid(fs: Files, path: string)
    requires fs.Valid()
    ensures
      var (fs', file) := fs.Create(path);
      && fs'.Valid() && path in fs'.names && fs'.names[path] == file && file in fs'.data
      && fs.data.Keys <= fs'.data.Keys
  {
  }

  // --- steps ------------------------------------------------------------------------------------

  lemma OpenKeeps(s: State, task: nat, cid: Uuid, dir: string, filename: string, totalChunks: nat, ok: bool)
    requires Inv(s)
    ensures Inv(DoOpen(s, task, cid, dir, filename, totalChunks, ok).0)
  {
    hide HandlesOk;
    if task !in s.tasks && ok {
      var (t, u) := OpenTemp(s.t, dir, filename, totalChunks);
      CreateValid(s.t.fs, u.tempPath);
      OpenHandle(s.t.entries, s.tasks, s.t.issued, s.t.closed, task, Opened(cid, u));
    }
  }

  lemma InsertKeeps(s: State, task: nat, now: int)
    requires Inv(s)
    ensures Inv(DoInsert(s, task, now).0)
  {
    hide HandlesOk;
    if task in s.tasks && s.tasks[task].Opened? {
      var c := s.tasks[task];
      StoreHandle(s.t.entries, s.tasks, s.t.issued, s.t.closed, task, (c.cid, s.t.nextId),
                  c.upload.(lastUpdated := now));
    }
  }

  lemma BeginKeeps(s: State, task: nat, key: TransferKey, chunk: Chunk)
    requires Inv(s)
    ensures Inv(DoBegin(s, task, key, chunk).0)
  {
    hide HandlesOk;
    if task !in s.tasks && key in s.t.entries {
      CheckedTask(s.t.entries, s.tasks, s.t.issued, s.t.closed, task,
                  Checked(key, chunk, chunk.index + 1 >= s.t.entries[key].totalChunks));
    }
  }

  lemma WriteMiddleKeeps(s: State, task: nat, now: int)
    requires Inv(s)
    ensures Inv(DoWriteMiddle(s, task, now).0)
  {
    hide HandlesOk;
    if task in s.tasks && s.tasks[task].Checked? && !s.tasks[task].last {
      var c := s.tasks[task];
      CheckedTask(s.t.entries, s.tasks, s.t.issued, s.t.closed, task, c);
      if c.key in s.t.entries {
        TouchEntry(s.t.entries, s.tasks - {task}, s.t.issued, s.t.closed, c.key,
                   s.t.entries[c.key].(lastUpdated := now));
      }
    }
  }

  lemma TakeKeeps(s: State, task: nat)
    requires Inv(s)
    ensures Inv(DoTake(s, task).0)
  {
    hide HandlesOk;
    if task in s.tasks && s.tasks[task].Checked? && s.tasks[task].last {
      var c := s.tasks[task];
      if c.key in s.t.entries {
        TakeHandle(s.t.entries, s.tasks, s.t.issued, s.t.closed, task, c.key,
                   Taken(c.key, s.t.entries[c.key], c.chunk));
      } else {
        CheckedTask(s.t.entries, s.tasks, s.t.issued, s.t.closed, task, c);
      }
    }
  }

  lemma WriteLastKeeps(s: State, task: nat, failsAfter: Option<nat>)
    requires Inv(s)
    ensures Inv(DoWriteLast(s, task, failsAfter).0)
  {
    hide HandlesOk;
    if task in s.tasks && s.tasks[task].Taken? {
      var c := s.tasks[task];
      if failsAfter.Some? {
        CloseTask(s.t.entries, s.tasks, s.t.issued, s.t.closed, task);
      } else {
        KeepHandle(s.t.entries, s.tasks, s.t.issued, s.t.closed, task, Written(c.key, c.upload, c.chunk));
      }
    }
  }

  lemma RenameKeeps(s: State, task: nat, ok: bool)
    requires Inv(s)
    ensures Inv(DoRename(s, task, ok).0)
  {
    hide HandlesOk;
    if task in s.tasks && s.tasks[task].Written? {
      CloseTask(s.t.entries, s.tasks, s.t.issued, s.t.closed, task);
    }
  }

  lemma DropKeeps(s: State, key: TransferKey)
    requires Inv(s)
    ensures Inv(s.(t := DropEntry(s.t, key)))
  {
    hide HandlesOk;
    if key in s.t.entries {
      CloseEntry(s.t.entries, s.tasks, s.t.issued, s.t.closed, key);
    }
  }

  lemma StepKeeps(s: State, e: Event)
    requires Inv(s)
    ensures Inv(Step(s, e).0)
  {
    hide DoOpen, DoInsert, DoBegin, DoWriteMiddle, DoTake, DoWriteLast, DoRename, HandlesOk;
    match e
    case Open(task, cid, dir, filename, totalChunks, ok) => OpenKeeps(s, task, cid, dir, filename, totalChunks, ok);
    case Insert(task, now) => InsertKeeps(s, task, now);
    case Begin(task, cid, id, chunk) => BeginKeeps(s, task, (cid, id), chunk);
    case WriteMiddle(task, now) => WriteMiddleKeeps(s, task, now);
    case Take(task) => TakeKeeps(s, task);
    case WriteLast(task, failsAfter) => WriteLastKeeps(s, task, failsAfter);
    case RenameTemp(task, ok) => RenameKeeps(s, task, ok);
    case Drop(key) => DropKeeps(s, key);
    case RemoveFile(path, ok) =>
    case DrawId =>
  }

  lemma {:induction false} RunKeeps(s: State, es: seq<Event>)
    requires Inv(s)
    ensures Inv(Run(s, es))
  {
    if es != [] {
      RunKeeps(s, es[..|es| - 1]);
      StepKeeps(Run(s, es[..|es| - 1]), es[|es| - 1]);
    }
  }

  lemma StartKeeps()
    ensures Inv(START)
  {
  }

  /** In every reachable state each opened handle is either in exactly one place (a table
      entry or a task about to store or commit it) and not closed, or nowhere and closed
      exactly once; nothing else was ever closed. */
  lemma HandlesConserved(es: seq<Event>, h: nat)
    ensures
      var s := Run(START, es);
      && HeldOnce(s.t.entries, s.tasks, s.t.issued)
      && (s.t.closed[h] == 1 <==> h < s.t.issued && !Held(s.t.entries, s.tasks, h))
      && (s.t.closed[h] == 0 <==> h >= s.t.issued || Held(s.t.entries, s.tasks, h))
  {
    hide Step;
    StartKeeps();
    RunKeeps(START, es);
  }

  // --- at most one commit ---------------------------------------------------------------------------

  /** The upload's id was given out, and the upload is neither in the table nor in flight. */
  ghost predicate Dead(s: State, key: TransferKey) {
    && key.1 < s.t.nextId
    && key !in s.t.entries
    && forall i :: i in s.tasks ==> !InFlight(s.tasks[i], key)
  }

  lemma DeadStep(s: State, e: Event, key: TransferKey)
    requires Inv(s) && Dead(s, key)
    ensures Dead(Step(s, e).0, key)
    ensures !(Step(s, e).1.Acked? && Step(s, e).1.key == key)
    ensures Step(s, e).1 != Started(key)
  {
    hide HandlesOk, FilesOk;
    if e.RenameTemp? && e.task in s.tasks && s.tasks[e.task].Written? {
      assert InFlight(s.tasks[e.task], s.tasks[e.task].key);
    }
    if e.WriteLast? && e.task in s.tasks && s.tasks[e.task].Taken? {
      assert InFlight(s.tasks[e.task], s.tasks[e.task].key);
    }
  }

  lemma CommitKills(s: State, e: Event)
    requires Inv(s)
    ensures Step(s, e).1.Acked? && Step(s, e).1.committed ==> Dead(Step(s, e).0, Step(s, e).1.key)
  {
    hide HandlesOk, FilesOk;
    if e.RenameTemp? && e.task in s.tasks && s.tasks[e.task].Written? {
      assert InFlight(s.tasks[e.task], s.tasks[e.task].key);
    }
  }

  lemma {:induction false} StaysDead(s: State, es: seq<Event>, key: TransferKey)
    requires Inv(s) && Dead(s, key)
    ensures Dead(Run(s, es), key)
  {
    hide Step, HandlesOk, FilesOk, KeysOk;
    if es != [] {
      var init := es[..|es| - 1];
      StaysDead(s, init, key);
      RunKeeps(s, init);
      DeadStep(Run(s, init), es[|es| - 1], key);
    }
  }

  lemma {:induction false} RunSplit(s: State, es: seq<Event>, i: nat)
    requires i <= |es|
    ensures Run(s, es) == Run(Run(s, es[..i]), es[i..])
    decreases |es|
  {
    hide Step;
    if i < |es| {
      var init := es[..|es| - 1];
      RunSplit(s, init, i);
      assert init[..i] == es[..i] && init[i..] == es[i..][..|es| - 1 - i];
    } else {
      assert es[..i] == es && es[i..] == [];
    }
  }

  /** An upload that was committed, cancelled, swept or lost is never acknowledged, committed
      or started again. */
  lemma NothingAfterDead(s: State, es: seq<Event>, i: nat, j: nat, key: TransferKey)
    requires Inv(s) && i <= j < |es| && Dead(Run(s, es[..i]), key)
    ensures !(OutputAt(s, es, j).Acked? && OutputAt(s, es, j).key == key)
    ensures OutputAt(s, es, j) != Started(key)
  {
    hide Step, HandlesOk, FilesOk, KeysOk;
    RunSplit(s, es[..j], i);
    assert es[..j][..i] == es[..i];
    RunKeeps(s, es[..i]);
    StaysDead(Run(s, es[..i]), es[..j][i..], key);
    RunKeeps(s, es[..j]);
    DeadStep(Run(s, es[..j]), es[j], key);
  }

  /** Under every interleaving an upload id is committed by rename at most once, and no
      acknowledgement for it follows the final one. */
  lemma CommittedAtMostOnce(es: seq<Event>, i: nat, j: nat)
    requires i < j < |es|
    requires OutputAt(START, es, i).Acked? && OutputAt(START, es, i).committed
    ensures !(OutputAt(START, es, j).Acked? && OutputAt(START, es, j).key == OutputAt(START, es, i).key)
  {
    hide Step, HandlesOk, FilesOk, KeysOk;
    StartKeeps();
    RunKeeps(START, es[..i]);
    CommitKills(Run(START, es[..i]), es[i]);
    assert es[..i + 1][..i] == es[..i] && es[..i + 1][i] == es[i];
    NothingAfterDead(START, es, i + 1, j, OutputAt(START, es, i).key);
  }
}
