/** Atomic replacement of config.json and the sweep of abandoned tmp files, over a file system that
    may fail any call and lose unsynced data (internal/config/writer.go). */
module ConfigWriter {
  import opened Wrappers
  import opened Loopback

  /** Who wrote a configuration; no branch depends on it. Wizard: the seeded account's name, if any. */
  datatype Origin = Wizard(seeded: Option<string>) | Brownfield

  datatype Config = Config(dsn: string, origin: Origin, createdAt: int, updatedAt: int)

  /** content None: empty, partial or garbage. synced: survives a power loss. */
  datatype File = File(content: Option<Config>, synced: bool)

  /** config: what an open of config.json sees; durable: what it may see again after a power loss
      that precedes the directory's fsync; tmps: the files config.json.tmp.<pid>. */
  datatype Disk = Disk(config: Option<File>, durable: Option<File>, tmps: map<nat, File>)

  // ---------------------------------------------------------------- system calls

  /** open with O_CREATE|O_EXCL succeeds. */
  predicate CanOpen(d: Disk, pid: nat) { pid !in d.tmps }
  function Opened(d: Disk, pid: nat): Disk { d.(tmps := d.tmps[pid := File(None, false)]) }
  function Written(d: Disk, pid: nat, c: Config): Disk { d.(tmps := d.tmps[pid := File(Some(c), false)]) }
  function Synced(d: Disk, pid: nat): Disk
    requires pid in d.tmps
  {
    d.(tmps := d.tmps[pid := d.tmps[pid].(synced := true)])
  }
  function Renamed(d: Disk, pid: nat): Disk
    requires pid in d.tmps
  {
    Disk(Some(d.tmps[pid]), d.durable, d.tmps - {pid})
  }
  function DirSynced(d: Disk): Disk { d.(durable := d.config) }
  function Removed(d: Disk, pid: nat): Disk { d.(tmps := d.tmps - {pid}) }

  /** Whatever a power loss may leave: the last rename is kept or lost; a tmp file that was not synced
      may hold anything; and since no removal and no rename of a tmp file is made durable in time, a tmp
      file that is not on the disk may be back. */
  predicate PowerLoss(before: Disk, after: Disk) {
    && (after.config == before.durable || after.config == before.config)
    && after.durable == after.config
    && forall p :: p in after.tmps && p in before.tmps ==> after.tmps[p] == before.tmps[p] || !before.tmps[p].synced
  }

  predicate Complete(f: Option<File>) { f.Some? ==> f.value.content.Some? && f.value.synced }

  // ---------------------------------------------------------------- WriteAtomic

  datatype Call = Open | Write | Sync | Close | Rename | DirSync | Remove

  function Stamped(c: Config, now: int): Config {
    c.(updatedAt := now, createdAt := if c.createdAt == 0 then now else c.createdAt)
  }

  class Directory {
    var disk: Disk

    constructor (disk: Disk)
      ensures this.disk == disk
    {
      this.disk := disk;
    }

    /** The write succeeds exactly when no tmp file of this pid is left and none of the calls up to the
        rename fails. config.json is then the new, synced payload; otherwise it is what it was. A tmp
        file of this pid remains exactly if it was there before, or if the write failed after the open
        and the removal failed as well. */
    method WriteAtomic(pid: nat, c: Config, now: int, fails: Call -> bool) returns (ok: bool)
      modifies this
      ensures ok <==> CanOpen(old(disk), pid) && !fails(Open) && !fails(Write) && !fails(Sync) && !fails(Close) && !fails(Rename)
      ensures disk.config == if ok then Some(File(Some(Stamped(c, now)), true)) else old(disk).config
      ensures disk.durable == if ok && !fails(DirSync) then disk.config else old(disk).durable
      ensures disk.tmps - {pid} == old(disk).tmps - {pid}
      ensures pid in disk.tmps <==> pid in old(disk).tmps || (!ok && !fails(Open) && fails(Remove))
    {
      var stamped := Stamped(c, now);
      if !CanOpen(disk, pid) || fails(Open) { return false; }
      disk := Opened(disk, pid);
      ok := false;
      if !fails(Write) {
        disk := Written(disk, pid, stamped);
        if !fails(Sync) {
          disk := Synced(disk, pid);
          if !fails(Close) && !fails(Rename) {
            disk := Renamed(disk, pid);
            if !fails(DirSync) { disk := DirSynced(disk); }
            return true;
          }
        }
      }
      if !fails(Remove) { disk := Removed(disk, pid); }
    }
  }

  // ---------------------------------------------------------------- SweepStale

  const MAX_INT := 0x7fff_ffff_ffff_ffff

  predicate Digits(s: string) { s != "" && forall i :: 0 <= i < |s| ==> '0' <= s[i] <= '9' }

  function Value(s: string): nat
    requires forall i :: 0 <= i < |s| ==> '0' <= s[i] <= '9'
  {
    if s == "" then 0 else Value(s[..|s| - 1]) * 10 + (s[|s| - 1] as int - '0' as int)
  }

  /** strconv.Atoi on a 64-bit int: an optional sign, digits, and the range of int64. */
  function Atoi(s: string): Option<int> {
    var signed := s != "" && (s[0] == '+' || s[0] == '-');
    var digits := if signed then s[1..] else s;
    if !Digits(digits) then None
    else if signed && s[0] == '-' then
      var v: int := Value(digits);
      if v <= MAX_INT + 1 then Some(-v) else None
    else if Value(digits) <= MAX_INT then Some(Value(digits)) else None
  }

  datatype Entry = Entry(name: string, isDir: bool)

  /** The names the sweep tries to remove; alive is the kill(pid, 0) test. */
  predicate Swept(e: Entry, prefix: string, self: int, alive: int -> bool) {
    && prefix <= e.name && !e.isDir
    && (var pid := Atoi(e.name[|prefix|..]);
        pid.None? || (pid.value != self && !(pid.value > 0 && alive(pid.value))))
  }

  /** Removes the swept files whose removal does not fail, and nothing else. */
  method SweepStale(entries: seq<Entry>, prefix: string, self: int, alive: int -> bool, stuck: string -> bool)
    returns (left: seq<Entry>)
    ensures forall e :: e in left <==> e in entries && (Swept(e, prefix, self, alive) ==> stuck(e.name))
    ensures forall e :: e in entries && !Swept(e, prefix, self, alive) ==> e in left
  {
    left := [];
    for i := 0 to |entries|
      invariant forall e :: e in left <==> e in entries[..i] && (Swept(e, prefix, self, alive) ==> stuck(e.name))
    {
      var e := entries[i];
      assert entries[..i + 1] == entries[..i] + [e];
      var remove := false;
      if prefix <= e.name && !e.isDir {
        var pid := Atoi(e.name[|prefix|..]);
        if pid.None? {
          remove := true;
        } else if pid.value != self && !(pid.value > 0 && alive(pid.value)) {
          remove := true;
        }
      }
      if !remove || stuck(e.name) { left := left + [e]; }
    }
    assert entries[..|entries|] == entries;
  }

  /** tmpPathFor: the suffix is the decimal pid, and the sweep reads back the pid that wrote it. */
  lemma {:induction false} DecimalReads(n: nat)
    ensures Digits(Decimal(n)) && Value(Decimal(n)) == n
  {
    if n < 10 {
      assert Decimal(n)[..0] == "";
    } else {
      DecimalReads(n / 10);
      assert Decimal(n)[..|Decimal(n)| - 1] == Decimal(n / 10);
    }
  }

  /** So the sweep spares the tmp file of every live process, and of this one, and tries to remove the
      tmp file of every other process. */
  lemma SweepIsExact(pid: nat, prefix: string, self: int, alive: int -> bool)
    requires 0 < pid <= MAX_INT
    ensures Swept(Entry(prefix + Decimal(pid), false), prefix, self, alive) <==> pid != self && !alive(pid)
  {
    DecimalReads(pid);
    var name := prefix + Decimal(pid);
    assert name[|prefix|..] == Decimal(pid);
    assert Decimal(pid)[0] != '+' && Decimal(pid)[0] != '-';
  }
}
