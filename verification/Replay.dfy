/** Single use of route authorizations across restarts: the file store over abstract durable state.
    Times are nanoseconds, expiries milliseconds since 1970. */
module Replay {
  import opened Common

  type Jti = string
  type UsedMap = map<Jti, int>

  const VERSION: nat := 1
  const MAX_STORE_SIZE: nat := 0x10_0000   // maxRouteReplayStoreSize, 1 MiB
  const MAX_JTI_BYTES: nat := 256

  datatype Result = Ok | Replayed | Invalid | SaveFailed

  /** time.UnixMilli(expiry).After(now) */
  predicate Unexpired(expiry: int, now: int) { expiry * NANOS_PER_MILLI > now }

  predicate Space(c: char) { c == ' ' || '\t' <= c <= '\r' }

  predicate ValidJti(jti: Jti)
  {
    jti != "" && !Space(jti[0]) && !Space(jti[|jti| - 1]) && |jti| <= MAX_JTI_BYTES
  }

  function Prune(used: UsedMap, now: int): UsedMap
  {
    map jti | jti in used && Unexpired(used[jti], now) :: used[jti]
  }

  // ----- the file store -----

  /** The state file: missing, or its decoded JSON together with its encoded size. */
  datatype Disk = Missing | File(version: nat, used: UsedMap, size: nat)

  /** How saveLocked ends: an error before the rename, an error after it (chmod), or success. `size`
      is the length of the encoded state. */
  datatype Save = Save(size: nat, renamed: bool, finished: bool)

  predicate Acceptable(d: Disk)
  {
    d.File? ==>
      && 0 < d.size <= MAX_STORE_SIZE && d.version == VERSION
      && forall jti :: jti in d.used ==> ValidJti(jti) && d.used[jti] > 0
  }

  /** OpenFileRouteAuthorizationReplay. */
  function OpenStore(d: Disk, now: int): Option<UsedMap>
  {
    if d.Missing? then Some(map[])
    else if !Acceptable(d) then None
    else Some(Prune(d.used, now))
  }

  /** saveLocked: the rename is atomic, so the disk holds the old or the new state. */
  function SaveState(d: Disk, next: UsedMap, save: Save): (Disk, bool)
  {
    if !(0 < save.size <= MAX_STORE_SIZE) || !save.renamed then (d, false)
    else (File(VERSION, next, save.size), save.finished)
  }

  /** ConsumeRouteAuthorization: memory, disk and result. */
  function AfterConsume(mem: UsedMap, d: Disk, jti: Jti, expiry: int, now: int, save: Save): (UsedMap, Disk, Result)
  {
    if !ValidJti(jti) || expiry <= 0 then (mem, d, Invalid)
    else
      var kept := Prune(mem, now);
      if jti in kept then (mem, d, Replayed)
      else
        var next := kept[jti := expiry];
        var (d', ok) := SaveState(d, next, save);
        if ok then (next, d', Ok) else (mem, d', SaveFailed)
  }

  // ----- every run of consumes, failed saves, crashes and restarts -----

  /** One successful consumption and the clock it read. */
  datatype Success = Success(jti: Jti, expiry: int, at: int)

  /** `mem` is absent while no process runs. `log` lists the successes, oldest first. */
  datatype Store = Store(disk: Disk, mem: Option<UsedMap>, clock: int, log: seq<Success>)

  datatype Action =
    | Tick(nanos: nat)
    | Start
    | Use(jti: Jti, expiry: int, save: Save)
    | CrashWhileSaving(jti: Jti, expiry: int, save: Save)   // no result reaches the caller
    | Crash

  function Do(s: Store, a: Action): Store
  {
    match a
    case Tick(nanos) => s.(clock := s.clock + nanos)
    case Start => if s.mem.Some? then s else s.(mem := OpenStore(s.disk, s.clock))
    case Use(jti, expiry, save) =>
      if s.mem.None? then s
      else
        var (m, d, r) := AfterConsume(s.mem.value, s.disk, jti, expiry, s.clock, save);
        s.(mem := Some(m), disk := d, log := if r.Ok? then s.log + [Success(jti, expiry, s.clock)] else s.log)
    case CrashWhileSaving(jti, expiry, save) =>
      if s.mem.None? then s
      else s.(mem := None, disk := AfterConsume(s.mem.value, s.disk, jti, expiry, s.clock, save).1)
    case Crash => s.(mem := None)
  }

  function Run(s: Store, schedule: seq<Action>): Store
    decreases |schedule|
  {
    if schedule == [] then s else Run(Do(s, schedule[0]), schedule[1..])
  }

  function Init(clock: int): Store { Store(Missing, None, clock, []) }

  /** Every success that has not expired is remembered, on disk and in memory. */
  predicate Remembers(used: UsedMap, log: seq<Success>, now: int)
  {
    forall i :: 0 <= i < |log| && Unexpired(log[i].expiry, now) ==>
      log[i].jti in used && used[log[i].jti] == log[i].expiry
  }

  /** A JTI succeeds again only once the earlier grant has expired. */
  predicate SingleUse(log: seq<Success>)
  {
    forall i, j :: 0 <= i < j < |log| && log[i].jti == log[j].jti ==> !Unexpired(log[i].expiry, log[j].at)
  }

  predicate Inv(s: Store)
  {
    && SingleUse(s.log)
    && (forall i :: 0 <= i < |s.log| ==> s.log[i].at <= s.clock)
    && Acceptable(s.disk)
    && (s.disk.Missing? ==> s.log == [])
    && (s.disk.File? ==> Remembers(s.disk.used, s.log, s.clock))
    && (s.mem.Some? ==>
          && Remembers(s.mem.value, s.log, s.clock)
          && forall jti :: jti in s.mem.value ==> ValidJti(jti) && s.mem.value[jti] > 0)
  }

  lemma PruneRemembers(used: UsedMap, log: seq<Success>, now: int)
    requires Remembers(used, log, now)
    ensures Remembers(Prune(used, now), log, now)
  {
  }

  lemma UseKeeps(s: Store, jti: Jti, expiry: int, save: Save)
    requires Inv(s)
    ensures Inv(Do(s, Use(jti, expiry, save))) && Inv(Do(s, CrashWhileSaving(jti, expiry, save)))
  {
    if s.mem.Some? {
      PruneRemembers(s.mem.value, s.log, s.clock);
    }
  }

  lemma DoKeeps(s: Store, a: Action)
    requires Inv(s)
    ensures Inv(Do(s, a))
  {
    match a
    case Use(jti, expiry, save) => UseKeeps(s, jti, expiry, save);
    case CrashWhileSaving(jti, expiry, save) => UseKeeps(s, jti, expiry, save);
    case _ =>
  }

  lemma {:induction false} RunKeeps(s: Store, schedule: seq<Action>)
    requires Inv(s)
    ensures Inv(Run(s, schedule))
    decreases |schedule|
  {
    if schedule != [] {
      DoKeeps(s, schedule[0]);
      RunKeeps(Do(s, schedule[0]), schedule[1..]);
    }
  }

  /** Over every run of consumes, failed saves, crashes at any point and restarts: a JTI that succeeded
      succeeds again only at a time its first expiry has passed, so one (JTI, expiry) is granted at most
      once before it expires; and the store can always be reopened on what it saved. */
  lemma SingleUseAcrossCrashes(clock: int, schedule: seq<Action>)
    ensures var s := Run(Init(clock), schedule);
      && (forall i, j :: 0 <= i < j < |s.log| && s.log[i].jti == s.log[j].jti ==>
            !Unexpired(s.log[i].expiry, s.log[j].at))
      && OpenStore(s.disk, s.clock).Some?
  {
    RunKeeps(Init(clock), schedule);
  }

  // ----- a failed consumption that burns the JTI -----

  /** An error from saveLocked leaves the JTI behind for a later restart exactly when the rename had
      happened and the expiry is still ahead: then only the final chmod failed. The running process
      itself does not remember it. */
  lemma BurnedExactlyWhenRenamed(mem: UsedMap, d: Disk, jti: Jti, expiry: int, now: int, save: Save, later: int)
    requires Acceptable(d) && (d.File? ==> jti !in d.used)
    requires forall k :: k in mem ==> ValidJti(k) && mem[k] > 0
    requires AfterConsume(mem, d, jti, expiry, now, save).2 == SaveFailed
    ensures var (mem', d', _) := AfterConsume(mem, d, jti, expiry, now, save);
      && mem' == mem && OpenStore(d', later).Some?
      && (jti in OpenStore(d', later).value <==>
            0 < save.size <= MAX_STORE_SIZE && save.renamed && Unexpired(expiry, later))
  {
  }

  /** It happens: nothing was ever granted, and after a restart the JTI is refused as replayed. */
  lemma FailedConsumptionCanBurn()
    ensures var s := Run(Init(0), [Start, Use("a", 1, Save(1, true, false)), Crash, Start]);
      && s.log == [] && s.mem.Some?
      && AfterConsume(s.mem.value, s.disk, "a", 1, s.clock, Save(1, true, true)).2 == Replayed
  {
    var s0 := Init(0);
    var s1 := Do(s0, Start);
    var s2 := Do(s1, Use("a", 1, Save(1, true, false)));
    assert s2.disk == File(VERSION, map["a" := 1], 1) && s2.log == [];
    var s3 := Do(s2, Crash);
    var s4 := Do(s3, Start);
    var use := Use("a", 1, Save(1, true, false));
    assert [Start, use, Crash, Start][1..] == [use, Crash, Start];
    assert [use, Crash, Start][1..] == [Crash, Start];
    assert [Crash, Start][1..] == [Start];
    assert Run(s3, [Start]) == Run(s4, []);
    assert "a" in s4.mem.value;
  }

  // ----- the objects of replay.go -----

  /** The file at the store's path. */
  class StateFile {
    var content: Disk

    constructor (content: Disk)
      ensures this.content == content
    {
      this.content := content;
    }
  }

  class FileReplay {
    const file: StateFile
    var used: UsedMap

    constructor (file: StateFile, used: UsedMap)
      ensures this.file == file && this.used == used
    {
      this.file, this.used := file, used;
    }

    method Consume(jti: Jti, expiry: int, now: int, save: Save) returns (r: Result)
      modifies this, file
      ensures (used, file.content, r) == AfterConsume(old(used), old(file.content), jti, expiry, now, save)
    {
      if !ValidJti(jti) || expiry <= 0 {
        return Invalid;
      }
      var next: UsedMap := map[];
      var todo := used.Keys;
      while todo != {}
        invariant todo <= used.Keys && used == old(used) && file.content == old(file.content)
        invariant next == map k | k in used && k !in todo && Unexpired(used[k], now) :: used[k]
        decreases |todo|
      {
        var k :| k in todo;
        todo := todo - {k};
        if Unexpired(used[k], now) {
          next := next[k := used[k]];
        }
      }
      assert next == Prune(used, now);
      if jti in next {
        return Replayed;
      }
      next := next[jti := expiry];
      var saved := SaveLocked(next, save);
      if !saved {
        return SaveFailed;
      }
      used := next;
      return Ok;
    }

    method SaveLocked(next: UsedMap, save: Save) returns (ok: bool)
      modifies file
      ensures (file.content, ok) == SaveState(old(file.content), next, save)
    {
      if save.size == 0 || save.size > MAX_STORE_SIZE || !save.renamed {
        return false;
      }
      file.content := File(VERSION, next, save.size);
      return save.finished;
    }
  }

  /** What the operating system and the JSON decoder make of an existing state file. */
  datatype Inspection = Inspection(statOk: bool, regular: bool, readOk: bool, chmodOk: bool, parses: bool)

  predicate Readable(i: Inspection) { i.statOk && i.regular && i.readOk && i.chmodOk && i.parses }

  /** A state file that exists must be a regular file, not a link, that can be read, secured and parsed. */
  method OpenFileReplay(file: StateFile, i: Inspection, now: int) returns (r: FileReplay?)
    ensures r == null <==> (!file.content.Missing? && !Readable(i)) || OpenStore(file.content, now).None?
    ensures r != null ==> r.file == file && r.used == OpenStore(file.content, now).value
  {
    if file.content.Missing? {
      r := new FileReplay(file, map[]);
      return;
    }
    if !i.statOk || !i.regular || !i.readOk || !i.chmodOk || !i.parses {
      return null;
    }
    var state := file.content;
    if state.size == 0 || state.size > MAX_STORE_SIZE || state.version != VERSION {
      return null;
    }
    var used: UsedMap := map[];
    var todo := state.used.Keys;
    while todo != {}
      invariant todo <= state.used.Keys
      invariant forall k :: k in state.used && k !in todo ==> ValidJti(k) && state.used[k] > 0
      invariant used == map k | k in state.used && k !in todo && Unexpired(state.used[k], now) :: state.used[k]
      decreases |todo|
    {
      var k :| k in todo;
      if !ValidJti(k) || state.used[k] <= 0 {
        return null;
      }
      todo := todo - {k};
      if Unexpired(state.used[k], now) {
        used := used[k := state.used[k]];
      }
    }
    assert used == Prune(state.used, now);
    r := new FileReplay(file, used);
  }
}
