/** Resetting the sync key: a file transaction with rollback, and the names of its
    scratch files (internal/config/sync_key.go). */
module SyncKeyResets {
  import opened Text

  // ---- files ----

  datatype Part = Private | Public | Sidecar

  const PARTS: seq<Part> := [Private, Public, Sidecar]

  /** The files beside the key: its live parts, this reset's temporary and backup
      files, scratch of earlier resets, and anything else. */
  datatype Path =
    | Live(part: Part)
    | Temp(part: Part)
    | Backup(part: Part)
    | Stale(n: nat)
    | Unrelated(name: string)

  datatype Content = Data(bytes: seq<nat>) | Directory

  type Files = map<Path, Content>

  predicate Scratch(p: Path) {
    p.Temp? || p.Backup? || p.Stale?
  }

  /** No directory has a temporary name. */
  predicate PlainTemps(files: Files) {
    forall p: Path :: p in files && p.Temp? ==> files[p].Data?
  }

  /** A file under a scratch name; directories under such names are left alone. */
  predicate Litter(files: Files, p: Path)
    requires p in files
  {
    Scratch(p) && files[p].Data?
  }

  /** Everything but scratch. */
  function Swept(files: Files): Files {
    map p | p in files && !Litter(files, p) :: files[p]
  }

  predicate Same(a: Files, b: Files, p: Path) {
    (p in a <==> p in b) && (p in a ==> a[p] == b[p])
  }

  /** Some live parts are moved to their backups; the rest is as before. */
  ghost predicate MovedOut(start: Files, files: Files, moved: set<Part>) {
    && (forall q :: q in moved ==> Live(q) in start && Live(q) !in files && Backup(q) in files && files[Backup(q)] == start[Live(q)])
    && (forall p: Path :: !(p.Live? && p.part in moved) && !(p.Backup? && p.part in moved) ==> Same(start, files, p))
    && (forall q :: q in moved ==> Backup(q) !in start)
  }

  /** The backups are in place, whatever the live parts are now. */
  ghost predicate Recoverable(start: Files, files: Files, moved: set<Part>) {
    && (forall q :: q in moved ==> Live(q) in start && Backup(q) in files && files[Backup(q)] == start[Live(q)] && Backup(q) !in start)
    && (forall p: Path :: !(p.Live? && p.part in moved) && !(p.Backup? && p.part in moved) ==> Same(start, files, p))
  }

  lemma SameEverywhere(a: Files, b: Files)
    requires forall p: Path :: Same(a, b, p)
    ensures a == b
  {
    assert forall p: Path :: p in a ==> Same(a, b, p);
    assert forall p: Path :: p in b ==> Same(a, b, p);
  }

  lemma AllParts()
    ensures forall q: Part :: q in PARTS
  {
    forall q: Part
      ensures q in PARTS
    {
      assert q == PARTS[0] || q == PARTS[1] || q == PARTS[2];
    }
  }

  class KeyDirectory {
    var files: Files
    var ops: nat
    const fails: nat -> bool

    constructor (files: Files, fails: nat -> bool)
      ensures this.files == files && this.fails == fails
    {
      this.files, this.fails := files, fails;
      ops := 0;
    }

    /** Does the next file operation succeed? */
    method Try() returns (ok: bool)
      modifies this`ops
    {
      ok := !fails(ops);
      ops := ops + 1;
    }

    method Rename(source: Path, target: Path) returns (ok: bool)
      requires source in files && source != target
      modifies this
      ensures files == if ok then (old(files) - {source})[target := old(files)[source]] else old(files)
    {
      ok := Try();
      if ok {
        files := (files - {source})[target := files[source]];
      }
    }

    /** Undo operations succeed; removing what is not there does nothing. */
    method Remove(p: Path)
      modifies this`files
      ensures files == old(files) - {p}
    {
      files := files - {p};
    }

    /** Remove the scratch of earlier resets. */
    method Sweep() returns (ok: bool)
      requires PlainTemps(files)
      modifies this
      ensures ok ==> files == Swept(old(files))
      ensures files.Keys <= old(files).Keys && forall p: Path :: p in Swept(old(files)) ==> p in files && files[p] == old(files)[p]
    {
      var todo := set p | p in files && Litter(files, p);
      while todo != {}
        invariant todo == set p | p in files && Litter(files, p)
        invariant files.Keys <= old(files).Keys && forall p: Path :: p in files ==> files[p] == old(files)[p]
        invariant forall p: Path :: p in Swept(old(files)) ==> p in files
        decreases todo
      {
        var p :| p in todo;
        ok := Try();
        if !ok {
          return false;
        }
        Remove(p);
        todo := todo - {p};
      }
      assert forall p: Path :: p in files ==> p !in todo;
      assert files == Swept(old(files));
      return true;
    }

    method RemoveTemps()
      modifies this`files
      ensures files == map p | p in old(files) && !p.Temp? :: old(files)[p]
    {
      Remove(Temp(Private));
      Remove(Temp(Public));
      Remove(Temp(Sidecar));
      assert forall p: Path :: p.Temp? ==> p == Temp(p.part) && (p.part.Private? || p.part.Public? || p.part.Sidecar?);
    }

    method RemoveLive()
      modifies this`files
      ensures files == map p | p in old(files) && !p.Live? :: old(files)[p]
    {
      Remove(Live(Private));
      Remove(Live(Public));
      Remove(Live(Sidecar));
      assert forall p: Path :: p.Live? ==> p == Live(p.part) && (p.part.Private? || p.part.Public? || p.part.Sidecar?);
    }

    /** Make the new key under temporary names; a failure leaves none of it. */
    method CreateTemp(made: Part -> Content) returns (ok: bool)
      requires forall p: Path :: p in files ==> !p.Temp?
      modifies this
      ensures ok ==> forall q :: Temp(q) in files && files[Temp(q)] == made(q)
      ensures ok ==> forall p: Path :: !p.Temp? ==> Same(old(files), files, p)
      ensures !ok ==> files == old(files)
    {
      ok := Try();
      if ok {
        files := files[Temp(Private) := made(Private)][Temp(Public) := made(Public)];
        ok := Try();
        if ok {
          files := files[Temp(Sidecar) := made(Sidecar)];
          forall q: Part
            ensures Temp(q) in files && files[Temp(q)] == made(q)
          {
            assert q.Private? || q.Public? || q.Sidecar?;
          }
          return true;
        }
      }
      RemoveTemps();
      assert files == old(files);
      return false;
    }

    /** Put the backups back, last one first. */
    method Restore(backups: seq<Part>, ghost start: Files)
      requires Recoverable(start, files, set q | q in backups)
      requires forall i, j :: 0 <= i < j < |backups| ==> backups[i] != backups[j]
      modifies this`files
      ensures files == start
    {
      var i := |backups|;
      while i > 0
        invariant 0 <= i <= |backups|
        invariant Recoverable(start, files, set q | q in backups[..i])
      {
        i := i - 1;
        var q := backups[i];
        assert backups[..i + 1] == backups[..i] + [q];
        assert q !in backups[..i];
        Remove(Live(q));
        files := (files - {Backup(q)})[Live(q) := files[Backup(q)]];
      }
      assert backups[..0] == [];
      SameEverywhere(start, files);
    }

    /** Move the live parts that exist out of the way; a directory in a part's
        place, or anything under its backup name, makes it fail. */
    method MoveExisting() returns (ok: bool, backups: seq<Part>)
      modifies this
      ensures forall i, j :: 0 <= i < j < |backups| ==> backups[i] != backups[j]
      ensures ok ==> MovedOut(old(files), files, set q | q in backups) && forall q :: Live(q) !in files
      ensures !ok ==> files == old(files)
    {
      backups := [];
      ghost var start := files;
      for i := 0 to 3
        invariant forall j, k :: 0 <= j < k < |backups| ==> backups[j] != backups[k]
        invariant forall q :: q in backups ==> q in PARTS[..i]
        invariant MovedOut(start, files, set q | q in backups)
        invariant forall q :: q in PARTS[..i] ==> Live(q) !in files
      {
        var q := PARTS[i];
        assert q !in PARTS[..i];
        assert PARTS[..i + 1] == PARTS[..i] + [q];
        ok := Try();
        if ok && Live(q) !in files {
          continue;
        }
        ok := ok && files[Live(q)].Data?;
        if ok {
          ok := Try();
          ok := ok && Backup(q) !in files;
        }
        if ok {
          ok := Rename(Live(q), Backup(q));
        }
        if !ok {
          Restore(backups, start);
          return false, backups;
        }
        backups := backups + [q];
      }
      assert PARTS[..3] == PARTS;
      AllParts();
      return true, backups;
    }

    /** Give the temporary files their live names; a failure removes those that
        already have them. */
    method Install() returns (ok: bool)
      requires forall q :: Temp(q) in files && Live(q) !in files
      modifies this
      ensures ok ==> forall q :: Temp(q) !in files && Live(q) in files && files[Live(q)] == old(files)[Temp(q)]
      ensures forall p: Path :: !p.Temp? && !p.Live? ==> Same(old(files), files, p)
    {
      for i := 0 to 3
        invariant forall j :: 0 <= j < i ==> Temp(PARTS[j]) !in files && Live(PARTS[j]) in files && files[Live(PARTS[j])] == old(files)[Temp(PARTS[j])]
        invariant forall j :: i <= j < 3 ==> Same(old(files), files, Temp(PARTS[j])) && Live(PARTS[j]) !in files
        invariant forall p: Path :: !p.Temp? && !p.Live? ==> Same(old(files), files, p)
      {
        ok := Rename(Temp(PARTS[i]), Live(PARTS[i]));
        if !ok {
          RemoveLive();
          return false;
        }
      }
      forall q
        ensures Temp(q) !in files && Live(q) in files && files[Live(q)] == old(files)[Temp(q)]
      {
        assert q == PARTS[0] || q == PARTS[1] || q == PARTS[2];
      }
      return true;
    }

    /** Remove what is installed and put the backups back. */
    method Rollback(backups: seq<Part>, ghost start: Files)
      requires forall q :: q in backups ==> Live(q) in start && Backup(q) in files && files[Backup(q)] == start[Live(q)] && Backup(q) !in start
      requires forall p: Path :: !p.Live? && !(p.Backup? && p.part in backups) ==> Same(start, files, p)
      requires forall q :: Live(q) in start ==> q in backups
      requires forall i, j :: 0 <= i < j < |backups| ==> backups[i] != backups[j]
      modifies this`files
      ensures files == start
    {
      RemoveLive();
      Restore(backups, start);
    }

    /** After a commit the backups are gone. */
    method Commit(backups: seq<Part>)
      modifies this`files
      ensures files == map p | p in old(files) && !(p.Backup? && p.part in backups) :: old(files)[p]
    {
      for i := 0 to |backups|
        invariant files == map p | p in old(files) && !(p.Backup? && p.part in backups[..i]) :: old(files)[p]
      {
        assert backups[..i + 1] == backups[..i] + [backups[i]];
        Remove(Backup(backups[i]));
      }
      assert backups[..|backups|] == backups;
    }

    /** Install; on failure undo the moves and the temporary files. */
    method InstallOrUndo(backups: seq<Part>, ghost start: Files) returns (ok: bool)
      requires forall q :: Temp(q) in files && Live(q) !in files && Temp(q) !in start
      requires forall q :: q in backups <==> Live(q) in start
      requires forall q :: q in backups ==> Backup(q) in files && files[Backup(q)] == start[Live(q)]
      requires forall q :: q in backups ==> Backup(q) !in start
      requires forall p: Path :: !p.Live? && !p.Temp? && !(p.Backup? && p.part in backups) ==> Same(start, files, p)
      requires forall i, j :: 0 <= i < j < |backups| ==> backups[i] != backups[j]
      modifies this
      ensures !ok ==> files == start
      ensures ok ==> forall q :: Temp(q) !in files && Live(q) in files && files[Live(q)] == old(files)[Temp(q)]
      ensures ok ==> forall p: Path :: !p.Temp? && !p.Live? ==> Same(old(files), files, p)
    {
      ok := Install();
      if !ok {
        ghost var left := map p | p in files && p.Temp? :: files[p];
        ghost var goal := start + left;
        forall p: Path | !p.Live? && !(p.Backup? && p.part in backups)
          ensures Same(goal, files, p)
        {
          if !p.Temp? {
            assert Same(start, old(files), p) && Same(old(files), files, p);
          }
        }
        forall q | q in backups
          ensures Live(q) in goal && Backup(q) in files && files[Backup(q)] == goal[Live(q)] && Backup(q) !in goal
        {
          assert Same(old(files), files, Backup(q));
        }
        Rollback(backups, goal);
        RemoveTemps();
        SameEverywhere(start, files);
      }
    }

    /** All of a reset after the sweep, up to installing the new key. */
    method StageSwept(made: Part -> Content) returns (ok: bool, backups: seq<Part>)
      requires forall p: Path :: p in files ==> !p.Temp?
      modifies this
      ensures !ok ==> files == old(files)
      ensures ok ==> Staged(old(files), files, backups, made)
    {
      backups := [];
      ghost var start := files;
      ok := CreateTemp(made);
      if !ok {
        return;
      }
      ghost var created := files;
      ok, backups := MoveExisting();
      if !ok {
        RemoveTemps();
        SameEverywhere(start, files);
        return;
      }
      ghost var moved := set q | q in backups;
      forall q: Part
        ensures q in backups <==> Live(q) in start
        ensures Temp(q) in files && files[Temp(q)] == made(q)
      {
        assert Same(created, files, Temp(q)) && Same(start, created, Live(q));
        assert q !in moved ==> Same(created, files, Live(q));
      }
      forall p: Path | !p.Live? && !p.Temp? && !(p.Backup? && p.part in backups)
        ensures Same(start, files, p)
      {
        assert Same(created, files, p);
      }
      ghost var before := files;
      ok := InstallOrUndo(backups, start);
      if ok {
        forall p: Path | !p.Live? && !(p.Backup? && p.part in backups)
          ensures Same(start, files, p)
        {
          if !p.Temp? {
            assert Same(start, before, p) && Same(before, files, p);
          }
        }
        forall q | q in backups
          ensures Backup(q) in files && files[Backup(q)] == start[Live(q)]
        {
          assert Same(before, files, Backup(q));
        }
      }
    }

    /** All of a reset up to installing the new key. */
    method Stage(made: Part -> Content) returns (ok: bool, swept: bool, backups: seq<Part>)
      requires PlainTemps(files)
      modifies this
      ensures ok ==> swept
      ensures !ok && swept ==> files == Swept(old(files))
      ensures !swept ==> files.Keys <= old(files).Keys && forall p: Path :: p in Swept(old(files)) ==> p in files && files[p] == old(files)[p]
      ensures ok ==> Staged(Swept(old(files)), files, backups, made)
    {
      backups := [];
      ok := false;
      swept := Sweep();
      if swept {
        ok, backups := StageSwept(made);
      }
    }

    /** The whole reset: all three parts are new, or the reset changed nothing but
        earlier scratch. */
    method Reset(made: Part -> Content) returns (ok: bool, swept: bool)
      requires PlainTemps(files)
      modifies this
      ensures ok ==> swept && forall q :: Live(q) in files && files[Live(q)] == made(q)
      ensures ok ==> forall p: Path :: !p.Live? ==> Same(Swept(old(files)), files, p)
      ensures !ok && swept ==> files == Swept(old(files))
      ensures !swept ==> forall p: Path :: p in Swept(old(files)) ==> p in files && files[p] == old(files)[p]
    {
      var backups;
      ok, swept, backups := Stage(made);
      if ok {
        Commit(backups);
      }
    }

    /** A staged reset that is rolled back later leaves no trace. */
    method StageThenRollback(made: Part -> Content) returns (ok: bool, swept: bool)
      requires PlainTemps(files)
      modifies this
      ensures swept ==> files == Swept(old(files))
    {
      var backups;
      ghost var start := Swept(files);
      ok, swept, backups := Stage(made);
      if ok {
        Rollback(backups, start);
      }
    }
  }

  /** The new key is in place, the old one in its backups, nothing else changed. */
  ghost predicate Staged(start: Files, files: Files, backups: seq<Part>, made: Part -> Content) {
    && (forall q :: Live(q) in files && files[Live(q)] == made(q))
    && (forall q :: Temp(q) !in files && Temp(q) !in start)
    && (forall q :: q in backups <==> Live(q) in start)
    && (forall q :: q in backups ==> Backup(q) in files && files[Backup(q)] == start[Live(q)] && Backup(q) !in start)
    && (forall p: Path :: !p.Live? && !(p.Backup? && p.part in backups) ==> Same(start, files, p))
    && (forall i, j :: 0 <= i < j < |backups| ==> backups[i] != backups[j])
  }

  // ---- names ----

  function SuffixOf(part: Part): string {
    match part
    case Private => ""
    case Public => ".pub"
    case Sidecar => ".clipfan.json"
  }

  predicate Decimal(s: string) {
    s != "" && forall i :: 0 <= i < |s| ==> '0' <= s[i] <= '9'
  }

  function LiveName(base: string, part: Part): string {
    base + SuffixOf(part)
  }

  const RESET: string := ".reset."
  const RESET_OLD: string := ".reset-old."

  /** The temporary file of a part: process id and counter make it unique. */
  function TempName(base: string, part: Part, pid: string, counter: string): string {
    "." + base + RESET + (pid + "." + counter + SuffixOf(part))
  }

  function BackupName(base: string, part: Part, pid: string, counter: string): string {
    base + SuffixOf(part) + RESET_OLD + (pid + "." + counter)
  }

  /** A process id, a dot and a counter. */
  predicate CounterSuffix(s: string) {
    var pid := Before(s, '.');
    |pid| < |s| && Decimal(pid) && Decimal(s[|pid| + 1..])
  }

  predicate ScratchName(base: string, name: string) {
    if HasPrefix(name, "." + base + RESET) then
      var rest := TrimPrefix(name, "." + base + RESET);
      exists part :: HasSuffix(rest, SuffixOf(part)) && CounterSuffix(TrimSuffix(rest, SuffixOf(part)))
    else
      exists part :: HasPrefix(name, base + SuffixOf(part) + RESET_OLD)
                     && CounterSuffix(TrimPrefix(name, base + SuffixOf(part) + RESET_OLD))
  }

  lemma {:induction false} BeforeDot(pid: string, rest: string)
    requires forall i :: 0 <= i < |pid| ==> pid[i] != '.'
    ensures Before(pid + "." + rest, '.') == pid
  {
    var all := pid + "." + rest;
    if pid == "" {
      assert all[0] == "."[0] == '.';
    } else {
      assert all[1..] == pid[1..] + "." + rest;
      BeforeDot(pid[1..], rest);
    }
  }

  lemma CountersAreCounters(pid: string, counter: string)
    requires Decimal(pid) && Decimal(counter)
    ensures CounterSuffix(pid + "." + counter)
  {
    BeforeDot(pid, counter);
    assert (pid + "." + counter)[|pid| + 1..] == counter;
  }

  /** After the base comes a dot and then a letter, so the name is no temporary one. */
  lemma NotTemporary(base: string, rest: string)
    requires |rest| > 1 ==> rest[1] != '.'
    ensures !HasPrefix(base + rest, "." + base + RESET)
  {
    var prefix := "." + base + RESET;
    assert prefix[|base| + 1] == RESET[0] == '.';
    NotPrefix(base + rest, prefix, |base| + 1);
  }

  lemma TempIsScratch(base: string, part: Part, pid: string, counter: string)
    requires Decimal(pid) && Decimal(counter)
    ensures ScratchName(base, TempName(base, part, pid, counter))
  {
    CountersAreCounters(pid, counter);
    var counters := pid + "." + counter;
    var rest := counters + SuffixOf(part);
    assert TrimPrefix(TempName(base, part, pid, counter), "." + base + RESET) == rest;
    assert HasSuffix(rest, SuffixOf(part)) && TrimSuffix(rest, SuffixOf(part)) == counters;
  }

  lemma BackupIsScratch(base: string, part: Part, pid: string, counter: string)
    requires Decimal(pid) && Decimal(counter)
    ensures ScratchName(base, BackupName(base, part, pid, counter))
  {
    CountersAreCounters(pid, counter);
    var counters := pid + "." + counter;
    var tail := SuffixOf(part) + RESET_OLD + counters;
    assert BackupName(base, part, pid, counter) == base + tail;
    assert tail[1] == match part case Private => 'r' case Public => 'p' case Sidecar => 'c';
    NotTemporary(base, tail);
    var prefix := base + SuffixOf(part) + RESET_OLD;
    assert HasPrefix(base + tail, prefix) && TrimPrefix(base + tail, prefix) == counters;
  }

  /** The stale-scratch recogniser accepts every generated name. */
  lemma GeneratedIsScratch(base: string, part: Part, pid: string, counter: string)
    requires Decimal(pid) && Decimal(counter)
    ensures ScratchName(base, TempName(base, part, pid, counter))
    ensures ScratchName(base, BackupName(base, part, pid, counter))
  {
    TempIsScratch(base, part, pid, counter);
    BackupIsScratch(base, part, pid, counter);
  }

  /** And never a live key file. */
  lemma LiveIsNotScratch(base: string, part: Part)
    ensures !ScratchName(base, LiveName(base, part))
  {
    var suffix, name := SuffixOf(part), LiveName(base, part);
    assert |suffix| > 1 ==> suffix[1] == if part.Public? then 'p' else 'c';
    NotTemporary(base, suffix);
    forall other: Part
      ensures !HasPrefix(name, base + SuffixOf(other) + RESET_OLD)
    {
      LiveIsNoBackup(base, part, other);
    }
  }

  lemma LiveIsNoBackup(base: string, part: Part, other: Part)
    ensures !HasPrefix(LiveName(base, part), base + SuffixOf(other) + RESET_OLD)
  {
    var name, prefix := LiveName(base, part), base + SuffixOf(other) + RESET_OLD;
    if part.Sidecar? && other.Private? {
      assert prefix == base + RESET_OLD;
      assert name[|base| + 1] == 'c' && prefix[|base| + 1] == 'r';
      NotPrefix(name, prefix, |base| + 1);
    } else {
      assert |name| < |prefix|;
    }
  }
}
