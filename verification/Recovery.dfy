/** internal/lifecycle, first half of a boot: consuming the restore marker and snapshotting the previous boot. */
module Recovery {
  import opened FileSystem
  import opened Backup
  import State

  /** The last event was overwritten, or it was not. */
  predicate EventKept(d: Disk, d': Disk) {
    d'.lastEvent == d.lastEvent || d'.lastEvent.Some?
  }

  /** The backup's data is live and its metadata is the last boot. */
  ghost predicate RestoredTo(d: Disk, name: string, d': Disk) {
    && name in d.backups && d.backups[name].Folder? && d.backups[name].meta.Some?
    && d' == AfterRestore(d, d.backups[name].image).(lastBoot := d.backups[name].meta, lastEvent := d'.lastEvent)
    && EventKept(d, d')
  }

  predicate Marked(d: Disk) {
    MARKER in d.backups
  }

  ghost predicate NothingToRestore(d: Disk, deployment: string) {
    deployment == "" || IsLatest(d.backups, deployment, "")
  }

  /** What is on disk when the request has been dealt with, before the deferred removal of the marker.
      `name` is the backup chosen, "" for none; `failed` says that an error is on its way to the caller. */
  ghost predicate RequestOutcome(d: Disk, deployment: string, name: string, failed: bool, d': Disk, r: Outcome) {
    && (name != "" ==> deployment != "" && IsLatest(d.backups, deployment, name))
    && (failed <==> r.Err?)
    && (failed ==> RestoreUnfinished(d, name, d') && (name == "" ==> d' == d))
    && (!failed && name == "" ==>
          d' == d.(lastEvent := d'.lastEvent) && EventKept(d, d') && (r.Ok? ==> NothingToRestore(d, deployment)))
    && (!failed && name != "" ==> RestoredTo(d, name, d') || (r.Crash? && RestoreUnfinished(d, name, d')))
  }

  /** Everything maybeRestore can leave behind. The marker goes only after the request was dealt with. */
  ghost predicate MaybeRestoreOutcome(d: Disk, deployment: string, name: string, failed: bool, d': Disk, r: Outcome) {
    if !Marked(d) then
      name == "" && !failed && d' == d
    else
      || (name == "" && !failed && !r.Ok? && d' == d)
      || (r.Crash? && !failed && RequestOutcome(d, deployment, name, failed, d', r))
      || (var dealtWith := if failed then Err else Ok;
          && (r == dealtWith || r.Crash?)
          && d'.backups in {d.backups, d.backups - {MARKER}}
          && RequestOutcome(d, deployment, name, failed, d'.(backups := d.backups), dealtWith))
  }

  /** An event whose write may fail unnoticed. */
  method NoteEvent(h: Host, message: string) returns (cut: bool)
    requires h.Valid()
    modifies h`stateDir, h`faults
    ensures old(h.faults) + Faults(cut) <= h.faults
    ensures h.Valid()
    ensures h.OnDisk() == old(h.OnDisk()).(lastEvent := h.OnDisk().lastEvent)
    ensures EventKept(old(h.OnDisk()), h.OnDisk())
    ensures h.faults == old(h.faults) ==> h.OnDisk().lastEvent == Some(message)
  {
    var r := State.WriteLastEvent(h, message);
    cut := r.Crash?;
  }

  /** The event that tells how a request was answered. */
  function RequestEvent(deployment: string, name: string): string {
    if deployment == "" then "restore requested but no deployment id"
    else if name == "" then "restore requested but no backup for current deployment"
    else "restored backup " + name
  }

  /** maybeRestore from the backup it has found on. */
  method RestoreFound(h: Host, candidate: string, ghost currentDeployment: string) returns (r: Outcome)
    requires h.Valid() && currentDeployment != "" && candidate != ""
            && IsLatest(h.backups, currentDeployment, candidate)
    modifies h`live, h`staged, h`stagedAt, h`stateDir, h`faults
    ensures old(h.faults) + Faults(r.Crash? || (r.Err? && !Headless(h.backups, candidate))) <= h.faults
    ensures h.Valid()
    ensures RequestOutcome(old(h.OnDisk()), currentDeployment, candidate, r.Err?, h.OnDisk(), r)
    ensures r.Ok? && h.faults == old(h.faults) ==>
              h.OnDisk().lastEvent == Some(RequestEvent(currentDeployment, candidate))
  {
    assert candidate in h.backups && h.backups[candidate].Folder?;
    hide IsLatest, PartWay, Restored;
    r := Restore(h, candidate);
    if !r.Ok? {
      return;
    }
    var meta;
    r, meta := ReadMeta(h, candidate);
    if !r.Ok? {
      return;
    }
    r := State.WriteLastBoot(h, meta);
    if !r.Ok? {
      return;
    }
    var cut := NoteEvent(h, "restored backup " + candidate);
    r := if cut then Crash else Ok;
  }

  /** maybeRestore between installing its deferred call and returning. */
  method DealWithRequest(h: Host, currentDeployment: string) returns (r: Outcome, ghost name: string)
    requires h.Valid()
    modifies h`live, h`staged, h`stagedAt, h`stateDir, h`faults
    ensures old(h.faults) + Faults(r.Crash?) <= h.faults
    ensures r.Err? ==>
              old(h.faults) < h.faults
              || (currentDeployment != "" && name != "" && IsLatest(h.backups, currentDeployment, name)
                  && Headless(h.backups, name))
    ensures h.Valid()
    ensures RequestOutcome(old(h.OnDisk()), currentDeployment, name, r.Err?, h.OnDisk(), r)
    ensures r.Ok? && h.faults == old(h.faults) ==>
              h.OnDisk().lastEvent == Some(RequestEvent(currentDeployment, name))
  {
    name := "";
    var cut;
    if currentDeployment == "" {
      cut := NoteEvent(h, "restore requested but no deployment id");
      r := if cut then Crash else Ok;
      return;
    }
    var candidate;
    r, candidate := LatestForDeployment(h, currentDeployment);
    if !r.Ok? {
      return;
    }
    if candidate == "" {
      cut := NoteEvent(h, "restore requested but no backup for current deployment");
      r := if cut then Crash else Ok;
      return;
    }
    name := candidate;
    hide RequestOutcome;
    r := RestoreFound(h, candidate, currentDeployment);
  }

  /** The backup that a marker asks for has its metadata. */
  ghost predicate Restorable(d: Disk, deployment: string) {
    Marked(d) && deployment != "" ==> forall n :: n != "" && IsLatest(d.backups, deployment, n) ==>
        !Headless(d.backups, n)
  }

  method MaybeRestore(h: Host, currentDeployment: string) returns (r: Outcome, ghost name: string, ghost failed: bool)
    requires h.Valid()
    modifies h`live, h`staged, h`stagedAt, h`stateDir, h`backups, h`cleared, h`faults
    ensures old(h.faults) + Faults(!r.Ok? && Restorable(old(h.OnDisk()), currentDeployment)) <= h.faults
    ensures h.Valid()
    ensures old(Marked(h.OnDisk())) && (r.Ok? || (r.Err? && failed)) ==> (Marked(h.OnDisk()) <==> !h.cleared.Ok?)
    ensures MaybeRestoreOutcome(old(h.OnDisk()), currentDeployment, name, failed, h.OnDisk(), r)
    ensures old(Marked(h.OnDisk())) && r.Ok? && h.faults == old(h.faults) ==>
              h.OnDisk().lastEvent == Some(RequestEvent(currentDeployment, name))
  {
    name, failed := "", false;
    var requested;
    r, requested := RestoreRequested(h);
    if !r.Ok? || !requested {
      return;
    }
    r, name := DealWithRequest(h, currentDeployment);
    failed := r.Err?;
    if !r.Crash? {
      var cleared := ClearRestoreMarker(h);
      if cleared.Crash? {
        r := Crash;
      }
    }
  }

  /** Whether Boot goes on to call Create for the boot recorded on disk. */
  predicate OwesSnapshot(d: Disk, useBackups: bool, currentBoot: string) {
    useBackups && d.lastBoot.Some? && Nameable(d.lastBoot.value) && d.lastBoot.value.boot != currentBoot
  }

  ghost predicate SnapshotOutcome(d: Disk, useBackups: bool, currentBoot: string, d': Disk, r: Outcome) {
    if OwesSnapshot(d, useBackups, currentBoot) then CreateOutcome(d, d.lastBoot.value, d', r) else d' == d
  }

  /** Boot's snapshot of whatever the last healthy boot left, under that boot's name. */
  method SnapshotPrevious(h: Host, useBackups: bool, currentBoot: string) returns (r: Outcome, prev: Option<LastBoot>)
    requires h.Valid()
    modifies h`backups, h`clock, h`faults
    ensures old(h.faults) + Faults(!r.Ok?) <= h.faults
    ensures h.Valid()
    ensures SnapshotOutcome(old(h.OnDisk()), useBackups, currentBoot, h.OnDisk(), r)
    ensures r.Ok? ==> prev == h.OnDisk().lastBoot && h.faults == old(h.faults)
  {
    r, prev := State.ReadLastBoot(h);
    if r.Ok? && useBackups && prev.Some? && prev.value.deployment != "" && prev.value.boot != ""
       && prev.value.boot != currentBoot {
      r := Create(h, prev.value);
    }
  }
}
