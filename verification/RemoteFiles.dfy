/** The files behind an SFTP session, as far as version 3 of the protocol
    (draft-ietf-secsh-filexfer-02) fixes their behaviour, and the paths the agent builds. */
module RemoteFiles {
  import opened Protocol

  /** Transfers are keyed by connection and transfer id. */
  type TransferKey = (Uuid, nat)

  /** Names point at files; an open handle keeps pointing at its file whatever happens to
      the name. */
  datatype Files = Files(names: map<string, nat>, data: map<nat, Bytes>, next: nat) {
    ghost predicate Valid() {
      && (forall i :: i in data ==> i < next)
      && (forall p :: p in names ==> names[p] in data)
      && (forall p, q :: p in names && q in names && names[p] == names[q] ==> p == q)
    }

    /** Open for appending, creating the file if need be (section 6.3). */
    function Create(path: string): (Files, nat) {
      if path in names then (this, names[path])
      else (Files(names[path := next], data[next := []], next + 1), next)
    }

    /** A write through an appending handle goes to the end of the file (section 6.3). */
    function Append(file: nat, bytes: Bytes): Files {
      if file in data then this.(data := data[file := data[file] + bytes]) else this
    }

    /** It is an error to rename onto an existing name (section 6.5). */
    function Rename(from: string, to: string): Option<Files> {
      if from !in names || to in names then None
      else Some(this.(names := (names - {from})[to := names[from]]))
    }

    function Remove(path: string): Option<Files> {
      if path in names then Some(this.(names := names - {path})) else None
    }
  }

  // --- paths ------------------------------------------------------------------------------

  predicate EndsInSlash(dir: string) {
    dir != "" && dir[|dir| - 1] == '/'
  }

  /** The path built by uploads and downloads. */
  function FilePath(dir: string, filename: string): string {
    if EndsInSlash(dir) then dir + filename else dir + "/" + filename
  }

  function TempPath(path: string): string {
    path + ".tmp"
  }

  function TrimEndSlashes(s: string): (r: string)
    ensures r <= s && !EndsInSlash(r)
  {
    if EndsInSlash(s) then TrimEndSlashes(s[..|s| - 1]) else s
  }

  /** The path built by deletes: one slash is made sure of, all trailing ones are trimmed,
      and one is put back. */
  function DeletePath(dir: string, filename: string): string {
    TrimEndSlashes(dir + (if EndsInSlash(dir) then "" else "/")) + "/" + filename
  }

  predicate EndsInTwoSlashes(dir: string) {
    |dir| >= 2 && dir[|dir| - 2..] == "//"
  }

  lemma TrimOne(base: string)
    ensures TrimEndSlashes(base + "/") == TrimEndSlashes(base)
  {
    assert (base + "/")[..|base|] == base;
  }

  /** The directory without one trailing slash, if it has one. */
  function Base(dir: string): string {
    if EndsInSlash(dir) then dir[..|dir| - 1] else dir
  }

  lemma BaseSlash(dir: string)
    ensures Base(dir) + "/" == dir + (if EndsInSlash(dir) then "" else "/")
    ensures EndsInSlash(Base(dir)) <==> EndsInTwoSlashes(dir)
  {
    if |dir| >= 2 {
      var end := dir[|dir| - 2..];
      assert end[0] == dir[|dir| - 2] && end[1] == dir[|dir| - 1];
      assert end == [end[0], end[1]];
    }
  }

  lemma SamePrefix(p: string, q: string, tail: string)
    ensures p + tail == q + tail <==> p == q
  {
    if p + tail == q + tail {
      assert |p| == |q|;
      assert p == (p + tail)[..|p|] && q == (q + tail)[..|q|];
    }
  }

  /** Delete and upload agree on a file's path exactly when the directory does not end in
      two or more slashes. */
  lemma DeletePathIsFilePath(dir: string, filename: string)
    ensures DeletePath(dir, filename) == FilePath(dir, filename) <==> !EndsInTwoSlashes(dir)
  {
    hide EndsInSlash, EndsInTwoSlashes, Base, TrimEndSlashes;
    var base, tail := Base(dir), "/" + filename;
    BaseSlash(dir);
    TrimOne(base);
    Trimmed(base);
    assert DeletePath(dir, filename) == TrimEndSlashes(base) + tail;
    var slashed := base + "/";
    assert FilePath(dir, filename) == slashed + filename;
    assert slashed + filename == base + tail;
    SamePrefix(TrimEndSlashes(base), base, tail);
  }

  lemma Trimmed(s: string)
    ensures TrimEndSlashes(s) == s <==> !EndsInSlash(s)
  {
  }

  /** Different files have different temporary paths. */
  lemma TempPathInjective(p: string, q: string)
    requires TempPath(p) == TempPath(q)
    ensures p == q
  {
    assert p == TempPath(p)[..|TempPath(p)| - 4];
    assert q == TempPath(q)[..|TempPath(q)| - 4];
  }
}
