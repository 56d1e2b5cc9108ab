/** The staged upload and the bounded download of file_transfer_store.go over an abstract
    directory. Disk faults are inputs of each call; SHA-256 is any function `sha`. */
module FileStore {
  import opened Common
  import opened Protocol

  type Path = string
  type Directory = map<Path, seq<Byte>>
  type Hash = seq<Byte> -> string

  /** uint64 subtraction, wrap-around included. */
  function Sub64(a: nat, b: nat): nat { (a - b) % UINT64 }

  /** The fixed parameters of one upload; `expectedSHA == ""` means no digest was announced. */
  datatype Terms = Terms(stage: Path, destination: Path, maxBytes: nat, expectedSize: Option<nat>, expectedSHA: string)
  {
    predicate Valid()
    {
      stage != destination && maxBytes < UINT64 && (expectedSize.Some? ==> expectedSize.value < UINT64)
    }
  }

  /** `hashed` is the input of the running digest; `dir` is the directory below the store's root. */
  datatype Upload = Upload(dir: Directory, written: nat, hashed: seq<Byte>, closed: bool, committed: bool)

  /** `n` bytes of a write reach the staging file; `fails` says it also returned an error. */
  datatype WriteFault = WriteFault(n: nat, fails: bool)
  datatype CommitFault = CommitFault(syncOk: bool, closeOk: bool, linkOk: bool)

  function Begin(t: Terms, dir: Directory): Upload
  {
    Upload(dir[t.stage := []], 0, [], false, false)
  }

  function Unstage(t: Terms, dir: Directory, removeOk: bool): Directory
  {
    if removeOk then dir - {t.stage} else dir
  }

  function Fail(t: Terms, u: Upload, removeOk: bool): Upload
  {
    u.(closed := true, dir := Unstage(t, u.dir, removeOk))
  }

  /** FileUpload.Write: the new state and whether it returned a nil error. */
  function AfterWrite(t: Terms, u: Upload, data: seq<Byte>, fault: WriteFault, removeOk: bool): (Upload, bool)
  {
    if u.closed then (u, false)
    else if data == [] then (u, true)
    else if |data| > Sub64(t.maxBytes, u.written) then (Fail(t, u, removeOk), false)
    else if t.expectedSize.Some? && |data| > Sub64(t.expectedSize.value, u.written) then (Fail(t, u, removeOk), false)
    else
      var kept := data[..Min(fault.n, |data|)];
      var staged := if t.stage in u.dir then u.dir[t.stage] else [];
      var u' := u.(dir := u.dir[t.stage := staged + kept], written := u.written + |kept|, hashed := u.hashed + kept);
      if fault.fails || |kept| != |data| then (Fail(t, u', removeOk), false) else (u', true)
  }

  /** FileUpload.Commit: the hard link publishes the staging file only where nothing exists. */
  function AfterCommit(t: Terms, sha: Hash, u: Upload, fault: CommitFault, removeOk: bool): (Upload, bool)
  {
    if u.committed then (u, true)
    else if u.closed then (u, false)
    else if t.expectedSize.Some? && u.written != t.expectedSize.value then (Fail(t, u, removeOk), false)
    else if t.expectedSHA != "" && sha(u.hashed) != t.expectedSHA then (Fail(t, u, removeOk), false)
    else if !fault.syncOk || !fault.closeOk then (Fail(t, u, removeOk), false)
    else if !fault.linkOk || t.destination in u.dir || t.stage !in u.dir then (Fail(t, u, removeOk), false)
    else
      var linked := u.dir[t.destination := u.dir[t.stage]];
      (u.(dir := Unstage(t, linked, removeOk), closed := true, committed := true), removeOk)
  }

  function AfterCancel(t: Terms, u: Upload, removeOk: bool): Upload
  {
    if u.committed || u.closed then u else Fail(t, u, removeOk)
  }

  // ----- every sequence of calls -----

  /** What an upload tolerates from everyone else below the same root: anything but a change to its staging
      file while it is open, or to its destination once it has committed. */
  predicate Tolerates(t: Terms, u: Upload, dir: Directory)
  {
    && (!u.closed ==> (t.stage in dir <==> t.stage in u.dir) && (t.stage in u.dir ==> dir[t.stage] == u.dir[t.stage]))
    && (u.committed && t.destination in u.dir ==> t.destination in dir && dir[t.destination] == u.dir[t.destination])
  }

  /** Others who never replace or remove an existing file at the destination either. */
  predicate Foreign(t: Terms, u: Upload, dir: Directory)
  {
    && (!u.closed ==> (t.stage in dir <==> t.stage in u.dir) && (t.stage in u.dir ==> dir[t.stage] == u.dir[t.stage]))
    && (t.destination in u.dir ==> t.destination in dir && dir[t.destination] == u.dir[t.destination])
  }

  /** `Other` is anybody else changing the directory. */
  datatype Call =
    | DoWrite(data: seq<Byte>, wf: WriteFault, removeOk: bool)
    | DoCommit(cf: CommitFault, removeOk: bool)
    | DoCancel(removeOk: bool)
    | Other(after: Directory)

  function Apply(t: Terms, sha: Hash, u: Upload, call: Call): Upload
  {
    match call
    case DoWrite(data, wf, removeOk) => AfterWrite(t, u, data, wf, removeOk).0
    case DoCommit(cf, removeOk) => AfterCommit(t, sha, u, cf, removeOk).0
    case DoCancel(removeOk) => AfterCancel(t, u, removeOk)
    case Other(after) => if Foreign(t, u, after) then u.(dir := after) else u
  }

  function ApplyAll(t: Terms, sha: Hash, u: Upload, calls: seq<Call>): Upload
    decreases |calls|
  {
    if calls == [] then u else ApplyAll(t, sha, Apply(t, sha, u, calls[0]), calls[1..])
  }

  /** While the upload is open the staging file, the byte counter and the digest agree and stay
      within both limits; once it is committed the destination is exactly what was hashed. */
  predicate UploadOk(t: Terms, sha: Hash, u: Upload)
  {
    && t.Valid()
    && u.written == |u.hashed|
    && u.written <= t.maxBytes
    && (t.expectedSize.Some? ==> u.written <= t.expectedSize.value)
    && (!u.closed ==> t.stage in u.dir && u.dir[t.stage] == u.hashed)
    && (u.committed ==> u.closed && Published(t, sha, u))
  }

  /** The destination holds exactly the hashed bytes, which match the announced size and digest. */
  predicate Published(t: Terms, sha: Hash, u: Upload)
  {
    && t.destination in u.dir && u.dir[t.destination] == u.hashed
    && (t.expectedSize.Some? ==> |u.hashed| == t.expectedSize.value)
    && (t.expectedSHA != "" ==> sha(u.hashed) == t.expectedSHA)
  }

  lemma LimitsDoNotWrap(t: Terms, sha: Hash, u: Upload)
    requires UploadOk(t, sha, u)
    ensures Sub64(t.maxBytes, u.written) == t.maxBytes - u.written
    ensures t.expectedSize.Some? ==> Sub64(t.expectedSize.value, u.written) == t.expectedSize.value - u.written
  {
  }

  lemma OthersKeep(t: Terms, sha: Hash, u: Upload, dir: Directory)
    requires UploadOk(t, sha, u) && Tolerates(t, u, dir)
    ensures UploadOk(t, sha, u.(dir := dir))
  {
  }

  lemma ApplyKeeps(t: Terms, sha: Hash, u: Upload, call: Call)
    requires UploadOk(t, sha, u)
    ensures UploadOk(t, sha, Apply(t, sha, u, call))
  {
    LimitsDoNotWrap(t, sha, u);
  }

  lemma {:induction false} ApplyAllKeeps(t: Terms, sha: Hash, u: Upload, calls: seq<Call>)
    requires UploadOk(t, sha, u)
    ensures UploadOk(t, sha, ApplyAll(t, sha, u, calls))
    decreases |calls|
  {
    if calls != [] {
      ApplyKeeps(t, sha, u, calls[0]);
      ApplyAllKeeps(t, sha, Apply(t, sha, u, calls[0]), calls[1..]);
    }
  }

  /** One call of the upload touches the destination only by publishing: from absent to exactly the
      staged bytes, in the Commit that sets `committed`. A closed upload touches nothing at all. */
  lemma OnlyCommitPublishes(t: Terms, sha: Hash, u: Upload, call: Call)
    requires UploadOk(t, sha, u) && !call.Other?
    ensures var u' := Apply(t, sha, u, call);
      && (u.closed ==> u' == u)
      && (u'.committed && !u.committed <==> (t.destination in u'.dir && t.destination !in u.dir))
      && (t.destination in u.dir ==> t.destination in u'.dir && u'.dir[t.destination] == u.dir[t.destination])
      && (u'.committed && !u.committed ==> u'.dir[t.destination] == u.dir[t.stage])
  {
    LimitsDoNotWrap(t, sha, u);
  }

  lemma {:induction false} ApplyAllConcat(t: Terms, sha: Hash, u: Upload, a: seq<Call>, b: seq<Call>)
    ensures ApplyAll(t, sha, u, a + b) == ApplyAll(t, sha, ApplyAll(t, sha, u, a), b)
    decreases |a|
  {
    if a == [] {
      assert a + b == b;
    } else {
      assert (a + b)[1..] == a[1..] + b;
      ApplyAllConcat(t, sha, Apply(t, sha, u, a[0]), a[1..], b);
    }
  }

  /** An existing destination keeps its content through every later call. */
  lemma {:induction false} NeverReplaced(t: Terms, sha: Hash, u: Upload, calls: seq<Call>)
    requires UploadOk(t, sha, u) && t.destination in u.dir
    ensures var v := ApplyAll(t, sha, u, calls);
      t.destination in v.dir && v.dir[t.destination] == u.dir[t.destination]
    decreases |calls|
  {
    if calls != [] {
      ApplyKeeps(t, sha, u, calls[0]);
      if !calls[0].Other? {
        OnlyCommitPublishes(t, sha, u, calls[0]);
      }
      NeverReplaced(t, sha, Apply(t, sha, u, calls[0]), calls[1..]);
    }
  }

  /** What everybody else did in between. */
  function Others(calls: seq<Call>): seq<Call>
  {
    if calls == [] then [] else (if calls[0].Other? then [calls[0]] else []) + Others(calls[1..])
  }

  /** After it was closed, no call of the upload has any effect, on its fields or on the disk. */
  lemma {:induction false} ClosedIsFinal(t: Terms, sha: Hash, u: Upload, calls: seq<Call>)
    requires UploadOk(t, sha, u) && u.closed
    ensures ApplyAll(t, sha, u, calls) == ApplyAll(t, sha, u, Others(calls))
    ensures ApplyAll(t, sha, u, calls) == u.(dir := ApplyAll(t, sha, u, calls).dir)
    decreases |calls|
  {
    if calls != [] {
      ApplyKeeps(t, sha, u, calls[0]);
      var rest := Others(calls[1..]);
      if calls[0].Other? {
        assert ([calls[0]] + rest)[1..] == rest;
      } else {
        OnlyCommitPublishes(t, sha, u, calls[0]);
        assert [] + rest == rest;
      }
      ClosedIsFinal(t, sha, Apply(t, sha, u, calls[0]), calls[1..]);
    }
  }

  /** Somebody else made the destination appear. */
  predicate MadeByOther(t: Terms, calls: seq<Call>)
  {
    exists i :: 0 <= i < |calls| && calls[i].Other? && t.destination in calls[i].after
  }

  /** When the destination first appears it is by a Commit that had accepted everything staged so far,
      or by somebody else. */
  lemma {:induction false} FirstAppearance(t: Terms, sha: Hash, u: Upload, calls: seq<Call>)
    requires UploadOk(t, sha, u) && t.destination !in u.dir
    ensures var v := ApplyAll(t, sha, u, calls);
      t.destination in v.dir && !MadeByOther(t, calls) ==>
        v.committed && v.dir[t.destination] == v.hashed == u.hashed + Staged(t, sha, u, calls)
    ensures ApplyAll(t, sha, u, calls).committed ==> t.destination in ApplyAll(t, sha, u, calls).dir
    decreases |calls|
  {
    ApplyAllKeeps(t, sha, u, calls);
    StagedIsHashed(t, sha, u, calls);
    if !MadeByOther(t, calls) {
      NobodyElse(t, sha, u, calls);
    }
  }

  lemma FromHere(t: Terms, sha: Hash, u: Upload, b: seq<Call>)
    requires UploadOk(t, sha, u)
    ensures var v := ApplyAll(t, sha, u, b);
      && (t.destination in u.dir ==> t.destination in v.dir && v.dir[t.destination] == u.dir[t.destination])
      && (t.destination !in u.dir && t.destination in v.dir && !MadeByOther(t, b) ==>
            v.committed && !u.closed && v.dir[t.destination] == u.hashed + Staged(t, sha, u, b))
  {
    if t.destination in u.dir {
      NeverReplaced(t, sha, u, b);
    } else {
      FirstAppearance(t, sha, u, b);
      if u.closed {
        ClosedIsFinal(t, sha, u, b);
      }
    }
  }

  /** Over every run of Write, Commit and Cancel calls, every disk fault and everything others do, cut
      at any point: a destination that exists is never replaced or removed; a closed upload has no
      further effect; and a destination that appears was made by somebody else or by the one Commit that
      published exactly the bytes accepted before it, with the announced size and digest. */
  lemma AllOrNothing(t: Terms, sha: Hash, dir: Directory, a: seq<Call>, b: seq<Call>)
    requires t.Valid()
    ensures var u, v := ApplyAll(t, sha, Begin(t, dir), a), ApplyAll(t, sha, Begin(t, dir), a + b);
      && (t.destination in u.dir ==> t.destination in v.dir && v.dir[t.destination] == u.dir[t.destination])
      && (u.closed ==> v == ApplyAll(t, sha, u, Others(b)) && v == u.(dir := v.dir))
      && (t.destination !in u.dir && t.destination in v.dir && !MadeByOther(t, b) ==>
            v.committed && !u.closed &&
            v.dir[t.destination] == Staged(t, sha, Begin(t, dir), a) + Staged(t, sha, u, b))
      && (v.committed ==> Published(t, sha, v))
  {
    var start := Begin(t, dir);
    var u := ApplyAll(t, sha, start, a);
    ApplyAllConcat(t, sha, start, a, b);
    ApplyAllKeeps(t, sha, start, a);
    ApplyAllKeeps(t, sha, u, b);
    StagedIsHashed(t, sha, start, a);
    assert u.hashed == Staged(t, sha, start, a);
    FromHere(t, sha, u, b);
    if u.closed {
      ClosedIsFinal(t, sha, u, b);
    }
  }

  /** The bytes that writes put into the staging file, by a definition of its own. */
  function Staged(t: Terms, sha: Hash, u: Upload, calls: seq<Call>): seq<Byte>
    decreases |calls|
  {
    if calls == [] then []
    else
      var u' := Apply(t, sha, u, calls[0]);
      (if calls[0].DoWrite? && Accepts(t, u, calls[0].data)
       then calls[0].data[..Min(calls[0].wf.n, |calls[0].data|)] else []) +
      Staged(t, sha, u', calls[1..])
  }

  predicate Accepts(t: Terms, u: Upload, data: seq<Byte>)
  {
    && !u.closed && u.written + |data| <= t.maxBytes
    && (t.expectedSize.Some? ==> u.written + |data| <= t.expectedSize.value)
  }

  lemma {:induction false} StagedIsHashed(t: Terms, sha: Hash, u: Upload, calls: seq<Call>)
    requires UploadOk(t, sha, u)
    ensures ApplyAll(t, sha, u, calls).hashed == u.hashed + Staged(t, sha, u, calls)
    decreases |calls|
  {
    if calls != [] {
      LimitsDoNotWrap(t, sha, u);
      ApplyKeeps(t, sha, u, calls[0]);
      StagedIsHashed(t, sha, Apply(t, sha, u, calls[0]), calls[1..]);
    }
  }

  lemma {:induction false} NobodyElse(t: Terms, sha: Hash, u: Upload, calls: seq<Call>)
    requires UploadOk(t, sha, u) && (t.destination in u.dir ==> u.committed)
    requires forall i :: 0 <= i < |calls| ==> !(calls[i].Other? && t.destination in calls[i].after)
    ensures var u' := ApplyAll(t, sha, u, calls); t.destination in u'.dir ==> u'.committed
    decreases |calls|
  {
    if calls != [] {
      ApplyKeeps(t, sha, u, calls[0]);
      if !calls[0].Other? {
        OnlyCommitPublishes(t, sha, u, calls[0]);
      }
      NobodyElse(t, sha, Apply(t, sha, u, calls[0]), calls[1..]);
    }
  }

  /** A nil error from Commit means published. The converse fails in exactly one case: the link
      succeeded and removing the staging file did not, and then a repeated Commit returns nil. */
  lemma CommitResult(t: Terms, sha: Hash, u: Upload, fault: CommitFault, removeOk: bool)
    requires UploadOk(t, sha, u) && !u.closed
    ensures var (u', ok) := AfterCommit(t, sha, u, fault, removeOk);
      && (ok ==> u'.committed && Published(t, sha, u'))
      && (u'.committed && !ok <==> u'.committed && !removeOk)
      && (u'.committed ==> AfterCommit(t, sha, u', fault, removeOk) == (u', true))
      && (u'.committed <==>
            && (t.expectedSize.Some? ==> u.written == t.expectedSize.value)
            && (t.expectedSHA != "" ==> sha(u.hashed) == t.expectedSHA)
            && fault.syncOk && fault.closeOk && fault.linkOk && t.destination !in u.dir)
  {
    ApplyKeeps(t, sha, u, DoCommit(fault, removeOk));
  }

  // ----- what one call leaves alone -----

  /** From `u` to `v` nothing changed but the staging file while the upload was open and the destination
      from absent to published; a closed upload stays as it is. */
  ghost predicate Touches(t: Terms, u: Upload, v: Upload)
  {
    && (u.closed ==> v == u)
    && (forall p :: p != t.stage && p != t.destination ==>
          (p in v.dir <==> p in u.dir) && (p in u.dir ==> v.dir[p] == u.dir[p]))
    && (t.destination in u.dir ==> t.destination in v.dir && v.dir[t.destination] == u.dir[t.destination])
    && (t.destination !in u.dir ==> (t.destination in v.dir <==> v.committed && !u.committed))
    && (u.committed ==> v.committed) && (v.committed && !u.committed ==> v.closed && t.destination !in u.dir)
    && (!v.closed && t.stage in u.dir ==> t.stage in v.dir)
  }

  lemma CallsTouch(t: Terms, sha: Hash, u: Upload, call: Call)
    requires t.stage != t.destination && !call.Other? && (u.committed ==> u.closed)
    ensures Touches(t, u, Apply(t, sha, u, call))
  {
  }

  // ----- the objects of file_transfer_store.go -----

  /** os.Root: the directory shared by every transfer. */
  class Root {
    var files: Directory

    constructor (files: Directory)
      ensures this.files == files
    {
      this.files := files;
    }
  }

  class FileUpload {
    const root: Root
    const terms: Terms
    const sha: Hash
    var hasFile: bool
    var written: nat
    var digest: seq<Byte>
    var closed: bool
    var committed: bool

    ghost function View(): Upload
      reads this, root
    {
      Upload(root.files, written, digest, closed, committed)
    }

    ghost predicate Valid()
      reads this, root
    {
      UploadOk(terms, sha, View()) && (!closed ==> hasFile)
    }

    /** BeginUpload after its checks: an empty private staging file. */
    constructor (root: Root, terms: Terms, sha: Hash)
      requires terms.Valid()
      modifies root
      ensures Valid() && this.root == root && this.terms == terms && this.sha == sha
      ensures View() == Begin(terms, old(root.files))
    {
      this.root, this.terms, this.sha := root, terms, sha;
      hasFile, written, digest, closed, committed := true, 0, [], false, false;
      new;
      root.files := root.files[terms.stage := []];
    }

    method FailLocked(removeOk: bool)
      modifies this, root
      ensures View() == Fail(terms, old(View()), removeOk)
    {
      closed := true;
      hasFile := false;
      if removeOk {
        root.files := root.files - {terms.stage};
      }
    }

    method Write(data: seq<Byte>, fault: WriteFault, removeOk: bool) returns (n: nat, ok: bool)
      requires Valid()
      modifies this, root
      ensures Valid()
      ensures (View(), ok) == AfterWrite(terms, old(View()), data, fault, removeOk)
      ensures ok ==> n == |data| && digest == old(digest) + data
      ensures n <= |data|
    {
      ghost var before := View();
      ApplyKeeps(terms, sha, before, DoWrite(data, fault, removeOk));
      n, ok := 0, false;
      if closed {
        return;
      }
      if |data| == 0 {
        return 0, true;
      }
      if |data| > Sub64(terms.maxBytes, written) {
        FailLocked(removeOk);
        return;
      }
      if terms.expectedSize.Some? && |data| > Sub64(terms.expectedSize.value, written) {
        FailLocked(removeOk);
        return;
      }
      n := if fault.n < |data| then fault.n else |data|;
      root.files := root.files[terms.stage := root.files[terms.stage] + data[..n]];
      if n > 0 {
        written := written + n;
        digest := digest + data[..n];
      }
      assert digest == old(digest) + data[..n];
      if fault.fails || n != |data| {
        FailLocked(removeOk);
        return;
      }
      assert data[..n] == data;
      ok := true;
    }

    method Commit(fault: CommitFault, removeOk: bool) returns (ok: bool)
      requires Valid()
      modifies this, root
      ensures Valid()
      ensures (View(), ok) == AfterCommit(terms, sha, old(View()), fault, removeOk)
      ensures ok ==> Published(terms, sha, View())
    {
      ghost var before := View();
      ApplyKeeps(terms, sha, before, DoCommit(fault, removeOk));
      if committed {
        return true;
      }
      if closed {
        return false;
      }
      if terms.expectedSize.Some? && written != terms.expectedSize.value {
        FailLocked(removeOk);
        return false;
      }
      if terms.expectedSHA != "" && sha(digest) != terms.expectedSHA {
        FailLocked(removeOk);
        return false;
      }
      if !fault.syncOk || !fault.closeOk || !fault.linkOk || terms.destination in root.files {
        FailLocked(removeOk);
        return false;
      }
      hasFile := false;
      root.files := root.files[terms.destination := root.files[terms.stage]];
      committed := true;
      closed := true;
      if removeOk {
        root.files := root.files - {terms.stage};
      }
      return removeOk;
    }

    method Cancel(removeOk: bool)
      requires Valid()
      modifies this, root
      ensures Valid()
      ensures View() == AfterCancel(terms, old(View()), removeOk)
    {
      ghost var before := View();
      ApplyKeeps(terms, sha, before, DoCancel(removeOk));
      if committed || closed {
        return;
      }
      FailLocked(removeOk);
    }
  }

  datatype ReadError = NoError | Eof | UnexpectedEof | Closed | Failed

  /** A download is bounded to the size seen when it was opened: `rest` is what the operating system
      would still return from the current offset, whatever has happened to the file since. */
  class FileDownload {
    var rest: seq<Byte>
    var remaining: nat
    var closed: bool

    constructor (content: seq<Byte>)
      ensures rest == content && remaining == |content| && !closed
    {
      rest, remaining, closed := content, |content|, false;
    }

    /** `n` bytes come back from the file with `err`; growth of the file is never handed out and an
        early end of file is reported as an error, so EOF means the whole size was delivered. */
    method Read(bufLen: nat, n: nat, osErr: ReadError) returns (data: seq<Byte>, err: ReadError)
      requires n <= bufLen && n <= |rest| && (!closed ==> n <= remaining)
      requires osErr.NoError? || osErr.Eof? || osErr.Failed?
      modifies this
      ensures old(rest) == data + rest && remaining == old(remaining) - |data| && closed == old(closed)
      ensures |data| <= bufLen && (old(closed) ==> data == [] && err == Closed)
      ensures err == Eof ==> data == [] && remaining == 0
      ensures err == NoError && osErr == Eof ==> remaining == 0
      ensures !old(closed) && osErr == Eof && remaining > 0 ==> err == UnexpectedEof
    {
      data := [];
      if closed {
        return data, Closed;
      }
      if remaining == 0 {
        return data, Eof;
      }
      data := rest[..n];
      rest := rest[n..];
      remaining := remaining - n;
      if osErr.Eof? && remaining > 0 {
        return data, UnexpectedEof;
      }
      if n > 0 && remaining == 0 && osErr.Eof? {
        return data, NoError;
      }
      err := osErr;
    }

    method Close()
      modifies this
      ensures closed && rest == old(rest) && remaining == old(remaining)
    {
      closed := true;
    }
  }
}
