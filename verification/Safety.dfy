/** What holds in every run of the boot protocol. */
module Safety {
  import opened FileSystem
  import opened Names
  import opened Backup
  import opened Recovery
  import opened BackupLaws
  import opened Protocol
  import opened Invariant
  import State

  // ---- what a boot leaves ----

  /** At index j the machine, booted as m, has just gone down. */
  ghost predicate WentDown(ws: seq<World>, j: nat, m: LastBoot) {
    0 < j < |ws| && !ws[j - 1].phase.Off? && ws[j].phase.Off? && ws[j - 1].self == m
  }

  lemma EndsHistory(w: World, d: Disk, r: Outcome, next: Phase, w': World)
    requires !w.phase.Off? && !next.Off?
    requires Ends(w, d, r, next, w')
    ensures w'.useBackups == w.useBackups && w'.self == w.self && w'.booted == w.booted
    ensures w'.known == w.known && w'.everKnown == w.everKnown && w'.committed == w.committed
    ensures w'.phase in {Off, Idle, next} && (r.Err? ==> w'.phase.Idle?) && (w'.phase == next ==> r.Ok? || next.Idle?)
    ensures w'.final == if w'.phase.Off? then w.final[w.self.boot := Snapshot(w'.disk.live)] else w.final
  {}

  /** The phase a stage leads to. */
  function After(w: World, l: Label): Phase
    requires IsStage(l)
  {
    match l
    case RestoreStage(_, _, _) => Protocol.Restored
    case SnapshotStage(_) => Running(0)
    case GateStage(_, _) => if w.phase.Running? then Running(w.phase.gates + 1) else Idle
    case PruneStage(_, _, _) => Pruned
    case CommitStage(_) => Committed
    case AnnounceStage(_) => Healthy
  }

  /** A stage changes the history in two ways: by power loss, and by a commit. */
  lemma StageHistory(w: World, l: Label, w': World)
    requires Possible(w, l, w') && IsStage(l)
    ensures w'.useBackups == w.useBackups && w'.self == w.self && w'.booted == w.booted
    ensures w'.known == w.known && w'.everKnown == w.everKnown
    ensures !w.phase.Off? && w'.phase in {Off, Idle, After(w, l)}
    ensures w'.phase.Running? && l.GateStage? ==> l.r.Ok?
    ensures w'.final == if w'.phase.Off? then w.final[w.self.boot := Snapshot(w'.disk.live)] else w.final
    ensures w'.committed == if l.CommitStage? && w'.disk.lastBoot == Some(w.self) then w.committed + {w.self}
            else w.committed
  {
    hide MaybeRestoreOutcome, SnapshotOutcome, PruneOutcome, GateWrites, EventKept, Ended, Snapshot;
    match l
    case RestoreStage(name, failed, r) => EndsHistory(w, w'.disk, r, Protocol.Restored, w');
    case SnapshotStage(r) => EndsHistory(w, w'.disk, r, Running(0), w');
    case GateStage(r, up) => EndsHistory(Gating(w, up), w'.disk, r, Running(w.phase.gates + 1), w');
    case PruneStage(head, torn, r) => EndsHistory(w, w'.disk, if r.Err? then Ok else r, Pruned, w');
    case CommitStage(r) => EndsHistory(Committing(w, w'.disk), w'.disk, r, Committed, w');
    case AnnounceStage(r) => EndsHistory(w, w'.disk, r, Healthy, w');
  }

  /** A final image is added exactly when a boot ends. */
  lemma StepFinals(w: World, l: Label, w': World)
    requires Possible(w, l, w')
    ensures if !w.phase.Off? && w'.phase.Off? then w'.final == w.final[w.self.boot := Snapshot(w'.disk.live)]
            else w'.final == w.final
    ensures w.phase.Off? || w'.self == w.self
  {
    if IsStage(l) {
      hide Possible;
      StageHistory(w, l, w');
    }
  }

  /** Boots stay on record. */
  lemma StepBoots(w: World, l: Label, w': World)
    requires Next(w, l, w')
    ensures forall b :: b in w.booted ==> b in w'.booted && w'.booted[b] == w.booted[b]
  {
    if IsStage(l) {
      hide Possible, Assumed;
      StageHistory(w, l, w');
    }
  }

  /** A deployment that was collected does not come back. */
  lemma StepDeployments(w: World, l: Label, w': World)
    requires Next(w, l, w')
    ensures w'.useBackups == w.useBackups
    ensures w.everKnown <= w'.everKnown
    ensures forall d :: d in w'.known ==> d in w.known || d !in w.everKnown
  {
    if IsStage(l) {
      hide Possible, Assumed;
      StageHistory(w, l, w');
    }
  }

  /** A final image was there before, or its boot has just gone down. */
  lemma FinalAppears(w: World, l: Label, w': World, m: LastBoot)
    requires IdsInv(w) && Next(w, l, w')
    requires m.boot in w'.final && m.boot in w'.booted && w'.booted[m.boot] == m
    ensures || (&& m.boot in w.final && m.boot in w.booted && w.booted[m.boot] == m
                && w'.final[m.boot] == w.final[m.boot])
            || (!w.phase.Off? && w'.phase.Off? && w.self == m && w'.final[m.boot] == Snapshot(w'.disk.live))
  {
    StepFinals(w, l, w');
    StepBoots(w, l, w');
    hide Possible, Assumed, Snapshot;
  }

  /** Every recorded final image is the live data at the moment its boot went down. */
  lemma {:induction false} FinalIsAMoment(ws: seq<World>, ls: seq<Label>, i: nat, m: LastBoot) returns (j: nat)
    requires Run(ws, ls) && i < |ws|
    requires m.boot in ws[i].final && m.boot in ws[i].booted && ws[i].booted[m.boot] == m
    ensures 0 < j <= i && WentDown(ws, j, m) && ws[i].final[m.boot] == Snapshot(ws[j].disk.live)
  {
    assert i > 0;
    hide Possible, Assumed, IdsInv, RecordInv, EntryInv, NewestInv, SafeInv, PhaseInv, Snapshot, Init;
    RunKeepsInv(ws, ls, i - 1);
    FinalAppears(ws[i - 1], ls[i - 1], ws[i], m);
    if m.boot in ws[i - 1].final && ws[i].final[m.boot] == ws[i - 1].final[m.boot] && m.boot in ws[i - 1].booted
       && ws[i - 1].booted[m.boot] == m {
      j := FinalIsAMoment(ws, ls, i - 1, m);
    } else {
      j := i;
    }
  }

  lemma {:induction false} FinalStays(ws: seq<World>, ls: seq<Label>, j: nat, i: nat, b: string)
    requires Run(ws, ls) && j <= i < |ws| && b in ws[j].final
    ensures b in ws[i].final && ws[i].final[b] == ws[j].final[b]
  {
    hide Possible, Assumed;
    if j < i {
      FinalStays(ws, ls, j, i - 1, b);
      RunKeepsInv(ws, ls, i - 1);
      StepFinals(ws[i - 1], ls[i - 1], ws[i]);
    }
  }

  lemma DownIsFinal(ws: seq<World>, ls: seq<Label>, j: nat, m: LastBoot)
    requires Run(ws, ls) && WentDown(ws, j, m)
    ensures m.boot in ws[j].final
  {
    assert Next(ws[j - 1], ls[j - 1], ws[j]);
    StepFinals(ws[j - 1], ls[j - 1], ws[j]);
  }

  /** A boot that is running at c has not gone down before. */
  lemma DownAfter(ws: seq<World>, ls: seq<Label>, c: nat, j: nat, m: LastBoot)
    requires Run(ws, ls) && c < |ws| && !ws[c].phase.Off? && ws[c].self == m
    requires WentDown(ws, j, m)
    ensures c < j
  {
    RunKeepsInv(ws, ls, c);
    if j <= c {
      DownIsFinal(ws, ls, j, m);
      FinalStays(ws, ls, j, c, m.boot);
    }
  }

  /** A kernel boot ends once, so "the data it left" is well defined. */
  lemma WentDownOnce(ws: seq<World>, ls: seq<Label>, j: nat, k: nat, m: LastBoot)
    requires Run(ws, ls) && WentDown(ws, j, m) && WentDown(ws, k, m)
    ensures j == k
  {
    DownAfter(ws, ls, j - 1, k, m);
    DownAfter(ws, ls, k - 1, j, m);
  }

  // ---- snapshots ----

  /** Snapshot fidelity. In every world of every run, a listed backup of a known deployment says whose it is and
      holds exactly the managed live data of the moment that boot went down, whatever failed, was retried,
      was cut or was rolled back in between. */
  lemma SnapshotFidelity(ws: seq<World>, ls: seq<Label>, i: nat, n: string)
    requires Run(ws, ls) && i < |ws|
    requires Listed(ws[i].disk.backups, n) && Before(n) in ws[i].known
    ensures var e := ws[i].disk.backups[n];
            && e.meta.Some? && Name(e.meta.value) == n
            && exists j :: 0 < j <= i && WentDown(ws, j, e.meta.value) && e.image == Snapshot(ws[j].disk.live)
  {
    RunKeepsInv(ws, ls, i);
    assert Faithful(ws[i], n);
    var j := FinalIsAMoment(ws, ls, i, ws[i].disk.backups[n].meta.value);
  }

  /** The write-ahead rule. Once a boot other than the recorded one has let Ensure or kubelet at the live data, a
      complete backup of the recorded boot exists, provided it has ids and its deployment is still known. */
  lemma WriteAhead(ws: seq<World>, ls: seq<Label>, i: nat, b: string)
    requires Run(ws, ls) && i < |ws|
    requires ws[i].disk.lastBoot.Some?
    requires b in ws[i].touched && b != ws[i].disk.lastBoot.value.boot
    requires ws[i].disk.lastBoot.value.deployment != "" && ws[i].disk.lastBoot.value.boot != ""
    requires ws[i].disk.lastBoot.value.deployment in ws[i].known
    ensures var m := ws[i].disk.lastBoot.value;
            && Listed(ws[i].disk.backups, Name(m))
            && ws[i].disk.backups[Name(m)].meta == Some(m)
            && exists j :: 0 < j <= i && WentDown(ws, j, m)
                && ws[i].disk.backups[Name(m)].image == Snapshot(ws[j].disk.live)
  {
    RunKeepsInv(ws, ls, i);
    OwnBackupListed(ws[i], ws[i].disk.lastBoot.value);
    SnapshotFidelity(ws, ls, i, Name(ws[i].disk.lastBoot.value));
  }

  /** Create copies nothing while kubelet runs: in-boot restarts find the snapshot taken, or none owed. */
  lemma QuiescentSnapshots(ws: seq<World>, ls: seq<Label>, i: nat)
    requires Run(ws, ls) && i < |ls| && ls[i].SnapshotStage? && ws[i].kubeletUp
    requires ws[i].disk.lastBoot.Some? ==> ws[i].disk.lastBoot.value.deployment in ws[i].known
    ensures ws[i + 1].disk == ws[i].disk
  {
    RunKeepsInv(ws, ls, i);
    assert Next(ws[i], ls[i], ws[i + 1]);
  }

  /** Exactly when a snapshot stage beside the running cluster is sure to copy nothing: when none is owed, when the
      recorded boot's deployment is known, or when the snapshot is there. */
  lemma QuiescentIff(ws: seq<World>, ls: seq<Label>, i: nat)
    requires Run(ws, ls) && i < |ws| && ws[i].phase.Restored? && ws[i].kubeletUp
    ensures var w := ws[i];
            (forall r, w' :: Next(w, SnapshotStage(r), w') ==> w'.disk == w.disk)
            <==> (|| !OwesSnapshot(w.disk, w.useBackups, w.self.boot)
                  || w.disk.lastBoot.value.deployment in w.known
                  || Name(w.disk.lastBoot.value) in w.disk.backups)
  {
    var w := ws[i];
    RunKeepsInv(ws, ls, i);
    if OwesSnapshot(w.disk, w.useBackups, w.self.boot) {
      var lb := w.disk.lastBoot.value;
      if lb.deployment !in w.known && Name(lb) !in w.disk.backups {
        CopyIsPossible(w);
      } else {
        assert Name(lb) in w.disk.backups;
        forall r, w' | Next(w, SnapshotStage(r), w')
          ensures w'.disk == w.disk
        {
          SnapshotNotOwed(w, SnapshotStage(r), w', lb);
        }
      }
    }
  }

  /** An owed snapshot that is not there can be taken. */
  lemma CopyIsPossible(w: World)
    requires w.phase.Restored? && OwesSnapshot(w.disk, w.useBackups, w.self.boot)
    requires Name(w.disk.lastBoot.value) !in w.disk.backups
    ensures var d := AfterCreate(w.disk, w.disk.lastBoot.value);
            d != w.disk && Next(w, SnapshotStage(Ok), Ended(w, d, Ok, Running(0)))
  {}

  /** The backup of the recorded boot, whenever there is one, is strictly the newest of its deployment. */
  lemma LastBootsBackupIsNewest(ws: seq<World>, ls: seq<Label>, i: nat, n: string)
    requires Run(ws, ls) && i < |ws|
    requires ws[i].disk.lastBoot.Some? && ws[i].disk.lastBoot.value.deployment in ws[i].known
    requires Name(ws[i].disk.lastBoot.value) in ws[i].disk.backups
    requires Listed(ws[i].disk.backups, n) && n != Name(ws[i].disk.lastBoot.value)
    requires Before(n) == ws[i].disk.lastBoot.value.deployment
    ensures ws[i].disk.backups[Name(ws[i].disk.lastBoot.value)].Folder?
    ensures ws[i].disk.backups[n].mtime < ws[i].disk.backups[Name(ws[i].disk.lastBoot.value)].mtime
  {
    RunKeepsInv(ws, ls, i);
    OwnBackupListed(ws[i], ws[i].disk.lastBoot.value);
  }

  /** No backup ever carries the id of the boot that is running. */
  lemma NoBackupNamesTheRunningBoot(ws: seq<World>, ls: seq<Label>, i: nat, n: string)
    requires Run(ws, ls) && i < |ws| && !ws[i].phase.Off?
    requires Listed(ws[i].disk.backups, n) && Before(n) in ws[i].known
    ensures ws[i].disk.backups[n].meta.Some? && ws[i].disk.backups[n].meta.value.boot != ws[i].self.boot
  {
    RunKeepsInv(ws, ls, i);
    assert Faithful(ws[i], n);
  }

  /** Whatever a marker may ask to restore has its metadata: with what is proved of Boot, a boot of a reachable node on
      which no call fails, and whose surroundings answer, is healthy. */
  lemma AlwaysRestorable(ws: seq<World>, ls: seq<Label>, i: nat)
    requires Run(ws, ls) && i < |ws| && !ws[i].phase.Off?
    ensures Restorable(ws[i].disk, ws[i].self.deployment)
  {
    var w := ws[i];
    RunKeepsInv(ws, ls, i);
    if w.self.deployment != "" {
      forall n | n != "" && IsLatest(w.disk.backups, w.self.deployment, n)
        ensures !Headless(w.disk.backups, n)
      {
        CandidateIsItsBoots(w, n);
      }
    }
  }

  // ---- provenance ----

  /** At index k, m passed gate g. */
  ghost predicate PassedAt(ws: seq<World>, ls: seq<Label>, k: nat, g: Gate, m: LastBoot) {
    && k < |ls| < |ws|
    && ls[k].GateStage? && ls[k].r.Ok?
    && ws[k].self == m && ws[k].phase.Running? && ws[k].phase.gates < |GATES| && GATES[ws[k].phase.gates] == g
  }

  /** At index c, m committed. */
  ghost predicate CommittedAt(ws: seq<World>, ls: seq<Label>, c: nat, m: LastBoot) {
    && c < |ls| < |ws|
    && Commits(ls[c]) && ws[c].phase.Pruned? && ws[c].self == m && ws[c + 1].disk.lastBoot == Some(m)
  }

  /** At the indices `ks`, one after the other, m passed the first |ks| gates, in their order, and from the first of
      them to index i one and the same attempt of nanok8s was under way. */
  ghost predicate OneAttempt(ws: seq<World>, ls: seq<Label>, ks: seq<nat>, i: nat, m: LastBoot) {
    && |ks| <= |GATES| && i < |ws|
    && (forall j :: 0 <= j < |ks| ==> ks[j] < i && PassedAt(ws, ls, ks[j], GATES[j], m))
    && (forall j, j' :: 0 <= j < j' < |ks| ==> ks[j] < ks[j'])
    && (ks != [] ==> forall k :: ks[0] < k <= i ==> UnderWay(ws[k], m))
  }

  /** An attempt gets on through its stages only; whatever else happens leaves it where it is, or ends it. */
  lemma StepWithinAttempt(w: World, l: Label, w': World)
    requires Possible(w, l, w') && (w'.phase.Running? || w'.phase.Pruned?)
    ensures w'.self == w.self
    ensures || (w'.phase == w.phase && !IsStage(l))
            || (l.SnapshotStage? && w'.phase == Running(0))
            || (l.GateStage? && l.r.Ok? && w.phase.Running? && w.phase.gates < |GATES|
                && w'.phase == Running(w.phase.gates + 1))
            || (l.PruneStage? && w.phase == Running(|GATES|) && w'.phase.Pruned?)
  {
    if IsStage(l) {
      StageHistory(w, l, w');
      hide MaybeRestoreOutcome, SnapshotOutcome, PruneOutcome, GateWrites, EventKept, Ends, Committing, Gating;
    }
  }

  ghost predicate UnderWay(w: World, m: LastBoot) {
    w.self == m && (w.phase.Running? || w.phase.Pruned?)
  }

  /** One more step of an attempt that is not a gate ... */
  lemma AttemptGoesOn(ws: seq<World>, ls: seq<Label>, ks: seq<nat>, i: nat, m: LastBoot)
    requires OneAttempt(ws, ls, ks, i, m) && i + 1 < |ws| && UnderWay(ws[i + 1], m)
    ensures OneAttempt(ws, ls, ks, i + 1, m)
  {
    hide PassedAt, UnderWay;
  }

  /** ... and one that is. */
  lemma AttemptPassesGate(ws: seq<World>, ls: seq<Label>, ks: seq<nat>, i: nat, m: LastBoot)
    requires OneAttempt(ws, ls, ks, i, m) && i + 1 < |ws| && UnderWay(ws[i + 1], m)
    requires |ks| < |GATES| && PassedAt(ws, ls, i, GATES[|ks|], m)
    ensures OneAttempt(ws, ls, ks + [i], i + 1, m)
  {
    hide PassedAt, UnderWay;
  }

  /** Whoever has got as far as gate g has passed the gates before it, in order and in this attempt. */
  lemma {:induction false} AttemptSoFar(ws: seq<World>, ls: seq<Label>, i: nat) returns (ks: seq<nat>)
    requires Run(ws, ls) && i < |ws| && (ws[i].phase.Running? || ws[i].phase.Pruned?)
    ensures OneAttempt(ws, ls, ks, i, ws[i].self)
    ensures |ks| == if ws[i].phase.Running? then ws[i].phase.gates else |GATES|
  {
    assert i > 0;
    assert Next(ws[i - 1], ls[i - 1], ws[i]);
    StepWithinAttempt(ws[i - 1], ls[i - 1], ws[i]);
    hide Possible, Assumed, Init;
    if ls[i - 1].SnapshotStage? {
      ks := [];
    } else {
      hide OneAttempt;
      ks := AttemptSoFar(ws, ls, i - 1);
      if ls[i - 1].GateStage? {
        AttemptPassesGate(ws, ls, ks, i - 1, ws[i].self);
        ks := ks + [i - 1];
      } else {
        AttemptGoesOn(ws, ls, ks, i - 1, ws[i].self);
      }
    }
  }

  /** A boot on record has a commit. */
  lemma {:induction false} CommitIsAStep(ws: seq<World>, ls: seq<Label>, i: nat, m: LastBoot) returns (c: nat)
    requires Run(ws, ls) && i < |ws| && m in ws[i].committed
    ensures c < i && CommittedAt(ws, ls, c, m)
  {
    assert i > 0;
    var w, l, w' := ws[i - 1], ls[i - 1], ws[i];
    assert Next(w, l, w');
    if m in w.committed {
      c := CommitIsAStep(ws, ls, i - 1, m);
    } else {
      RunKeepsInv(ws, ls, i - 1);
      NewCommit(w, l, w', m);
      c := i - 1;
    }
  }

  lemma NewCommit(w: World, l: Label, w': World, m: LastBoot)
    requires Possible(w, l, w') && RecordInv(w) && m in w'.committed && m !in w.committed
    ensures Commits(l) && w.phase.Pruned? && w.self == m && w'.disk.lastBoot == Some(m)
  {
    if IsStage(l) {
      StageHistory(w, l, w');
      hide MaybeRestoreOutcome, SnapshotOutcome, PruneOutcome, GateWrites, EventKept, Ends;
    }
  }

  /** Whatever last-boot or a backup's metadata names committed at some step c, and before that, in the same attempt,
      passed all the gates in their order; an announced boot is committed. */
  lemma Provenance(ws: seq<World>, ls: seq<Label>, i: nat, m: LastBoot) returns (c: nat, ks: seq<nat>)
    requires Run(ws, ls) && i < |ws|
    requires ws[i].disk.lastBoot == Some(m)
      || exists n :: n in ws[i].disk.backups && Listed(ws[i].disk.backups, n) && ws[i].disk.backups[n].meta == Some(m)
    ensures c < i && CommittedAt(ws, ls, c, m)
    ensures |ks| == |GATES| && OneAttempt(ws, ls, ks, c, m)
    ensures ws[i].phase.Healthy? ==> ws[i].disk.lastBoot == Some(ws[i].self)
  {
    RunKeepsInv(ws, ls, i);
    assert Recorded(ws[i], m);
    c := CommitIsAStep(ws, ls, i, m);
    ks := AttemptSoFar(ws, ls, c);
  }

  lemma PickChangesLastBoot(w: World, l: Label, w': World)
    requires Possible(w, l, w') && Picks(l)
    requires w'.disk.lastBoot != w.disk.lastBoot
    ensures !l.failed && w.useBackups && Marked(w.disk) && IsLatest(w.disk.backups, w.self.deployment, l.name)
    ensures w'.disk.lastBoot == w.disk.backups[l.name].meta
    ensures Snapshot(w'.disk.live) == Snapshot(w.disk.backups[l.name].image)
  {
    hide IsLatest;
    if RestoredTo(w.disk, l.name, w'.disk.(backups := w.disk.backups)) {
      RestoredSplit(w.disk.live, w.disk.backups[l.name].image);
    }
  }

  /** Last-boot changes in two ways only, short of a reset: the running boot commits, having passed all its gates in
      this attempt, or the newest backup of the booted deployment has been restored, with kubelet down. */
  lemma LastBootChanges(ws: seq<World>, ls: seq<Label>, i: nat) returns (ks: seq<nat>)
    requires Run(ws, ls) && i < |ls|
    requires ws[i + 1].disk.lastBoot != ws[i].disk.lastBoot
    ensures var w, l, w' := ws[i], ls[i], ws[i + 1];
            || (&& CommittedAt(ws, ls, i, w.self)
                && |ks| == |GATES| && OneAttempt(ws, ls, ks, i, w.self))
            || (&& l.RestoreStage? && !l.failed && l.name != "" && w.useBackups && Marked(w.disk) && !w.kubeletUp
                && IsLatest(w.disk.backups, w.self.deployment, l.name)
                && w'.disk.lastBoot == w.disk.backups[l.name].meta
                && Snapshot(w'.disk.live) == Snapshot(w.disk.backups[l.name].image))
            || (l.Resetting? && w'.disk.lastBoot.None?)
  {
    ks := [];
    assert Next(ws[i], ls[i], ws[i + 1]);
    if Picks(ls[i]) {
      PickChangesLastBoot(ws[i], ls[i], ws[i + 1]);
      hide Possible, IsLatest;
    } else if Commits(ls[i]) {
      CommitChangesLastBoot(ws[i], ls[i], ws[i + 1]);
      hide Possible;
      ks := AttemptSoFar(ws, ls, i);
    } else if !ls[i].Resetting? {
      hide Possible, Assumed;
      LastBootStays(ws[i], ls[i], ws[i + 1]);
    }
  }

  lemma CommitChangesLastBoot(w: World, l: Label, w': World)
    requires Possible(w, l, w') && Commits(l) && w'.disk.lastBoot != w.disk.lastBoot
    ensures w.phase.Pruned? && w'.disk.lastBoot == Some(w.self)
  {}

  // ---- rollback ----

  lemma {:induction false} StaysUnknown(ws: seq<World>, ls: seq<Label>, i: nat, e: nat, d: string)
    requires Run(ws, ls) && i <= e < |ws|
    requires d in ws[i].everKnown && d in ws[e].known
    ensures d in ws[i].known && d in ws[e].everKnown
    decreases e - i
  {
    hide Possible, Assumed;
    if i < e {
      StepDeployments(ws[i], ls[i], ws[i + 1]);
      StaysUnknown(ws, ls, i + 1, e, d);
    }
  }

  predicate Commits(l: Label) {
    l.CommitStage? && !l.r.Err?
  }

  predicate Picks(l: Label) {
    l.RestoreStage? && l.name != ""
  }

  /** m's backup is the newest of its deployment, and last-boot is m or a boot of another deployment. */
  ghost predicate Guarded(w: World, m: LastBoot) {
    && NewestOf(w.disk.backups, m.deployment, Name(m)) && w.disk.backups[Name(m)].meta == Some(m)
    && w.disk.lastBoot.Some? && (w.disk.lastBoot == Some(m) || w.disk.lastBoot.value.deployment != m.deployment)
  }

  /** The newest entry stays the newest as long as its group gets no new or changed entry. */
  lemma NewestStays(b: Backups, b': Backups, d: string, n: string)
    requires NewestOf(b, d, n) && DistinctStamps(b') && n in b' && b'[n] == b[n]
    requires forall k :: k in b' && Listed(b', k) && Before(k) == d ==> k in b && Listed(b, k) && b'[k] == b[k]
    ensures NewestOf(b', d, n)
  {}

  lemma MarkerAside(b: Backups, b': Backups, d: string, n: string)
    requires NewestOf(b, d, n) && DistinctStamps(b') && n != MARKER
    requires b' - {MARKER} == b - {MARKER}
    ensures NewestOf(b', d, n) && b'[n] == b[n]
  {
    forall k | k != MARKER
      ensures (k in b <==> k in b') && (k in b ==> b'[k] == b[k])
    {
      assert k in b <==> k in b - {MARKER};
      assert k in b' <==> k in b' - {MARKER};
      assert k in b ==> (b - {MARKER})[k] == b[k] && (b' - {MARKER})[k] == b'[k];
    }
    assert '_' !in MARKER;
    NewestStays(b, b', d, n);
  }

  /** While no boot of m's deployment takes the record over, every step keeps m's backup the newest, and last-boot at m
      or in another deployment. It stays m unless a boot commits or another deployment is restored for. */
  lemma StepKeepsOwnBackup(w: World, l: Label, w': World, m: LastBoot)
    requires Inv(w) && Inv(w') && Next(w, l, w')
    requires Guarded(w, m) && m.deployment in w.known
    requires l.CommitStage? && w'.disk.lastBoot != w.disk.lastBoot ==> w.self.deployment != m.deployment
    requires !(l.Resetting? && l.r.Ok?)
    ensures Guarded(w', m)
    ensures && w.disk.lastBoot == Some(m) && (l.CommitStage? ==> w'.disk.lastBoot == w.disk.lastBoot)
            && (Picks(l) ==> w.self.deployment == m.deployment) ==>
              w'.disk.lastBoot == Some(m)
  {
    assert DistinctStamps(w'.disk.backups);
    MarkerIsNoName(m);
    hide IdsInv, RecordInv, EntryInv, NewestInv, SafeInv, PhaseInv, Possible, Assumed, NewestOf, Name;
    if l.RestoreStage? && w.useBackups {
      RestoreKeepsGuard(w, l, w', m);
    } else if l.SnapshotStage? {
      SnapshotKeepsGuard(w, l, w', m);
    } else if l.PruneStage? && w.useBackups {
      PruneKeepsGuard(w, l, w', m);
    } else {
      OtherStepKeepsGuard(w, l, w', m);
    }
  }

  lemma RestoreKeepsGuard(w: World, l: Label, w': World, m: LastBoot)
    requires IdsInv(w) && EntryInv(w) && Possible(w, l, w') && l.RestoreStage? && w.useBackups
    requires Guarded(w, m) && DistinctStamps(w'.disk.backups)
    ensures Guarded(w', m)
    ensures w.disk.lastBoot == Some(m) && (Picks(l) ==> w.self.deployment == m.deployment) ==>
              w'.disk.lastBoot == Some(m)
  {
    MarkerIsNoName(m);
    BackupsStay(w, l, w');
    MarkerAside(w.disk.backups, w'.disk.backups, m.deployment, Name(m));
    if w'.disk.lastBoot != w.disk.lastBoot {
      RestoredOver(w, l, w', m);
    }
  }

  lemma BackupsStay(w: World, l: Label, w': World)
    requires Possible(w, l, w') && l.RestoreStage? && w.useBackups
    ensures w'.disk.backups - {MARKER} == w.disk.backups - {MARKER}
  {
    hide MaybeRestoreOutcome;
    MarkerGuardsRestore(w.disk, w.self.deployment, l.name, l.failed, w'.disk, l.r);
  }

  /** A restore that moves last-boot moves it to m, or to a boot of another deployment. */
  lemma RestoredOver(w: World, l: Label, w': World, m: LastBoot)
    requires IdsInv(w) && EntryInv(w) && Possible(w, l, w') && l.RestoreStage? && w.useBackups
    requires NewestOf(w.disk.backups, m.deployment, Name(m)) && w.disk.backups[Name(m)].meta == Some(m)
    requires w'.disk.lastBoot != w.disk.lastBoot
    ensures w'.disk.lastBoot.Some?
    ensures if w.self.deployment == m.deployment then w'.disk.lastBoot == Some(m)
            else w'.disk.lastBoot.value.deployment != m.deployment
    ensures Picks(l)
  {
    hide NewestOf;
    assert !w.phase.Off?;
    if !Picks(l) {
      LastBootStays(w, l, w');
    }
    PickChangesLastBoot(w, l, w');
    hide Possible;
    if w.self.deployment == m.deployment {
      NewestIsCandidate(w.disk.backups, m.deployment, Name(m), l.name);
    } else {
      CandidateIsItsBoots(w, l.name);
    }
  }

  lemma SnapshotKeepsGuard(w: World, l: Label, w': World, m: LastBoot)
    requires IdsInv(w) && RecordInv(w) && Possible(w, l, w') && l.SnapshotStage?
    requires Guarded(w, m) && DistinctStamps(w'.disk.backups)
    ensures Guarded(w', m) && w'.disk.lastBoot == w.disk.lastBoot
  {
    var lb := w.disk.lastBoot.value;
    NameIsProper(lb);
    assert SnapshotOutcome(w.disk, w.useBackups, w.self.boot, w'.disk, l.r);
    hide Possible, IdsInv, RecordInv;
    if OwesSnapshot(w.disk, w.useBackups, w.self.boot) {
      CreateKeepsRecord(w.disk, lb, w'.disk, l.r);
      if lb != m {
        CreateKeepsNewest(w.disk, lb, w'.disk, l.r, m.deployment, Name(m));
      }
    }
  }

  /** A snapshot for one deployment leaves the newest backup of another the newest. */
  lemma CreateKeepsNewest(d: Disk, lb: LastBoot, d': Disk, r: Outcome, deployment: string, n: string)
    requires CreateOutcome(d, lb, d', r) && NewestOf(d.backups, deployment, n) && DistinctStamps(d'.backups)
    requires Before(Name(lb)) == lb.deployment != deployment
    ensures NewestOf(d'.backups, deployment, n) && d'.backups[n] == d.backups[n]
  {
    CreateKeepsComplete(d, lb, d', r);
    hide CreateOutcome, Listed, Before, Name;
    NewestStays(d.backups, d'.backups, deployment, n);
  }

  lemma CreateKeepsRecord(d: Disk, lb: LastBoot, d': Disk, r: Outcome)
    requires CreateOutcome(d, lb, d', r)
    ensures d'.lastBoot == d.lastBoot && (Name(lb) in d.backups ==> d' == d)
  {}

  lemma PruneKeepsGuard(w: World, l: Label, w': World, m: LastBoot)
    requires EntryInv(w) && Possible(w, l, w') && Assumed(w, l, w') && l.PruneStage? && w.useBackups
    requires Guarded(w, m) && m.deployment in w.known && DistinctStamps(w'.disk.backups)
    ensures Guarded(w', m) && w'.disk.lastBoot == w.disk.lastBoot
  {
    var b, b' := w.disk.backups, w'.disk.backups;
    assert PruneOutcome(w.disk, w.known, l.head, l.torn, w'.disk, l.r);
    assert Chooses(b, w.known, l.head);
    PrunedEntries(w, l.head, l.torn, w'.disk, l.r);
    NewestIsSpared(b, w.known, l.head, Name(m), m.deployment);
    assert Name(m) in b' && b'[Name(m)] == b[Name(m)];
    hide PruneOutcome, EntryInv, Possible, Assumed, Listed, Before;
    NewestStays(b, b', m.deployment, Name(m));
  }

  /** What happens beside restore, snapshot and prune leaves all backups alone. */
  lemma OtherStepKeepsGuard(w: World, l: Label, w': World, m: LastBoot)
    requires Possible(w, l, w') && Assumed(w, l, w') && !(l.Resetting? && l.r.Ok?)
    requires !((l.RestoreStage? || l.PruneStage?) && w.useBackups) && !l.SnapshotStage?
    requires Guarded(w, m) && DistinctStamps(w'.disk.backups)
    requires l.CommitStage? && w'.disk.lastBoot != w.disk.lastBoot ==> w.self.deployment != m.deployment
    ensures Guarded(w', m) && (!l.CommitStage? ==> w'.disk.lastBoot == w.disk.lastBoot)
  {
    MarkerIsNoName(m);
    OtherStepKeepsBackups(w, l, w');
    hide Possible, Assumed;
    MarkerAside(w.disk.backups, w'.disk.backups, m.deployment, Name(m));
  }

  lemma OtherStepKeepsBackups(w: World, l: Label, w': World)
    requires Possible(w, l, w') && Assumed(w, l, w') && !(l.Resetting? && l.r.Ok?)
    requires !((l.RestoreStage? || l.PruneStage?) && w.useBackups) && !l.SnapshotStage?
    ensures w'.disk.backups - {MARKER} == w.disk.backups - {MARKER}
    ensures w'.disk.lastBoot == w.disk.lastBoot || (l.CommitStage? && w'.disk.lastBoot == Some(w.self))
  {
    hide MaybeRestoreOutcome, SnapshotOutcome, PruneOutcome;
  }

  lemma PickedIsLatest(d: Disk, deployment: string, name: string, failed: bool, d': Disk, r: Outcome)
    requires MaybeRestoreOutcome(d, deployment, name, failed, d', r) && name != ""
    ensures IsLatest(d.backups, deployment, name)
  {
    hide RestoreUnfinished, AfterRestore, IsLatest;
  }

  lemma LastBootStays(w: World, l: Label, w': World)
    requires Possible(w, l, w') && !Commits(l) && !Picks(l) && !l.Resetting?
    ensures w'.disk.lastBoot == w.disk.lastBoot
  {}

  /** Until something changes last-boot, it is m. */
  lemma {:induction false} RecordedUntil(ws: seq<World>, c: nat, i: nat, m: LastBoot)
    requires c < i < |ws| && ws[c + 1].disk.lastBoot == Some(m)
    requires forall k :: c < k < i ==> ws[k + 1].disk.lastBoot == ws[k].disk.lastBoot
    ensures ws[i].disk.lastBoot == Some(m)
  {
    if c + 1 < i {
      RecordedUntil(ws, c, i - 1, m);
      assert ws[i - 1 + 1].disk.lastBoot == ws[i - 1].disk.lastBoot;
    }
  }

  lemma SnapshotLeavesOwn(w: World, w': World, m: LastBoot)
    requires Possible(w, SnapshotStage(Ok), w') && w.useBackups && w.disk.lastBoot == Some(m)
    requires Nameable(m) && w.self.boot != m.boot
    ensures w'.disk.lastBoot == Some(m) && Name(m) in w'.disk.backups && w'.known == w.known
  {
    assert SnapshotOutcome(w.disk, w.useBackups, w.self.boot, w'.disk, Ok);
    hide Name, Inv, CreateUnfinished;
  }

  /** The snapshot stage of another boot, completed, leaves m's backup behind. */
  lemma SnapshotTaken(w: World, w': World, m: LastBoot)
    requires Inv(w) && Inv(w') && Possible(w, SnapshotStage(Ok), w')
    requires w.useBackups && w.disk.lastBoot == Some(m) && m.deployment in w.known
    requires m.deployment != "" && w.self.boot != m.boot
    ensures Guarded(w', m)
  {
    SnapshotLeavesOwn(w, w', m);
    hide Possible, Name, NewestOf, IdsInv, EntryInv, NewestInv;
    OwnBackupIsNewest(w', m);
  }

  /** ... and it stays the newest until the rollback. */
  lemma {:induction false} GuardedUntil(ws: seq<World>, ls: seq<Label>, s: nat, i: nat, m: LastBoot)
    requires Run(ws, ls) && s < i < |ws| && Guarded(ws[s + 1], m)
    requires forall k :: s < k < i ==> !TakesOver(ws, ls, k, m)
    requires forall k :: s < k <= i ==> m.deployment in ws[k].known
    ensures Guarded(ws[i], m)
  {
    hide Possible, Assumed, Inv, Guarded;
    if s + 1 < i {
      GuardedUntil(ws, ls, s, i - 1, m);
      RunKeepsInv(ws, ls, i - 1);
      RunKeepsInv(ws, ls, i);
      assert !TakesOver(ws, ls, i - 1, m);
      StepKeepsOwnBackup(ws[i - 1], ls[i - 1], ws[i], m);
    }
  }

  lemma {:induction false} EverKnownGrows(ws: seq<World>, ls: seq<Label>, i: nat, k: nat)
    requires Run(ws, ls) && i <= k < |ws|
    ensures ws[i].everKnown <= ws[k].everKnown && ws[i].useBackups == ws[k].useBackups
  {
    if i < k {
      EverKnownGrows(ws, ls, i, k - 1);
      StepDeployments(ws[k - 1], ls[k - 1], ws[k]);
    }
  }

  lemma KnownSince(ws: seq<World>, ls: seq<Label>, c: nat, i: nat, e: nat)
    requires Run(ws, ls) && c <= i <= e < |ws| && !ws[c].phase.Off? && ws[c].useBackups
    requires ws[c].self.deployment in ws[e].known
    ensures ws[c].self.deployment in ws[i].known
  {
    RunKeepsInv(ws, ls, c);
    EverKnownGrows(ws, ls, c, i);
    StaysUnknown(ws, ls, i, e, ws[c].self.deployment);
  }

  /** A marker, a backup to restore and a nil return: then maybeRestore chose a backup. */
  lemma MarkerIsObeyed(w: World, l: Label, w': World)
    requires Possible(w, l, w') && l.RestoreStage? && l.r.Ok? && w.useBackups
    requires Marked(w.disk) && w.self.deployment != "" && HasCandidate(w.disk.backups, w.self.deployment)
    ensures Picks(l)
  {
    if l.name == "" {
      NothingChosen(w.disk, w.self.deployment, l.failed, w'.disk, l.r);
      hide HasCandidate, IsLatest;
    }
  }

  /** What ends m's turn as the last healthy boot of its deployment: at step k a boot of that deployment gets as far as
      writing its record, or the node is reset. */
  ghost predicate TakesOver(ws: seq<World>, ls: seq<Label>, k: nat, m: LastBoot)
    requires k < |ls| < |ws|
  {
    || (ls[k].CommitStage? && ws[k + 1].disk.lastBoot != ws[k].disk.lastBoot && ws[k].self.deployment == m.deployment)
    || (ls[k].Resetting? && ls[k].r.Ok?)
  }

  /** Rollback. Boot m gets as far as writing its record, at step c. Nothing changes last-boot until another boot gets
      past Create (step s). From then on anything may happen, boots of other deployments that fail, are killed or cut
      anywhere, are restored for, or commit, as long as no boot of m's deployment takes over and the node is not reset.
      Finally, with the marker in place and m's deployment booted, maybeRestore returns nil (step e). Then it has
      restored: last-boot is m again, version included, the managed live data is what it was when m went down (at j),
      and the snapshot stage that follows has nothing to do. */
  lemma Rollback(ws: seq<World>, ls: seq<Label>, c: nat, s: nat, e: nat, m: LastBoot) returns (j: nat)
    requires Run(ws, ls) && c < s < e < |ls|
    requires CommittedAt(ws, ls, c, m) && m.deployment != ""
    requires forall k :: c < k < s ==> ws[k + 1].disk.lastBoot == ws[k].disk.lastBoot
    requires ls[s] == SnapshotStage(Ok) && ws[s].self.boot != m.boot
    requires forall k :: s < k < e ==> !TakesOver(ws, ls, k, m)
    requires ls[e].RestoreStage? && ls[e].r.Ok? && Marked(ws[e].disk) && ws[e].self.deployment == m.deployment
    ensures Picks(ls[e]) && ws[e + 1].disk.lastBoot == Some(m)
    ensures c < j <= e && WentDown(ws, j, m) && Snapshot(ws[e + 1].disk.live) == Snapshot(ws[j].disk.live)
    ensures e + 1 < |ls| && ls[e + 1].SnapshotStage? ==> ws[e + 2].disk == ws[e + 1].disk
  {
    assert Next(ws[e], ls[e], ws[e + 1]);
    OwnBackupAtRollback(ws, ls, c, s, e, m);
    RunKeepsInv(ws, ls, e);
    OwnBackupRestored(ws[e], ls[e], ws[e + 1], m);
    j := FinalIsAMoment(ws, ls, e, m);
    DownAfter(ws, ls, c, j, m);
    if e + 1 < |ls| && ls[e + 1].SnapshotStage? {
      assert Next(ws[e + 1], ls[e + 1], ws[e + 2]);
      SnapshotNotOwed(ws[e + 1], ls[e + 1], ws[e + 2], m);
    }
  }

  /** The marker brings back the last healthy boot of the booted deployment from its own backup. */
  lemma OwnBackupRestored(w: World, l: Label, w': World, m: LastBoot)
    requires Inv(w) && Possible(w, l, w') && l.RestoreStage? && l.r.Ok? && w.useBackups && Marked(w.disk)
    requires NewestOf(w.disk.backups, m.deployment, Name(m)) && w.disk.backups[Name(m)].meta == Some(m)
    requires m.deployment == w.self.deployment != ""
    ensures Picks(l) && m.boot in w.final && m.boot in w.booted && w.booted[m.boot] == m
    ensures w'.disk.lastBoot == Some(m) && Snapshot(w'.disk.live) == w.final[m.boot]
    ensures Name(m) in w'.disk.backups
  {
    CandidateIsGroupMember(w.disk.backups, m.deployment, Name(m));
    MarkerIsObeyed(w, l, w');
    PickedIsLatest(w.disk, w.self.deployment, l.name, l.failed, w'.disk, l.r);
    NewestIsCandidate(w.disk.backups, m.deployment, Name(m), l.name);
    assert Faithful(w, Name(m));
    RestoredIsFinal(w, l.name, w'.disk);
    MarkerIsNoName(m);
    assert Name(m) in w.disk.backups - {MARKER};
  }

  lemma SnapshotNotOwed(w: World, l: Label, w': World, m: LastBoot)
    requires Possible(w, l, w') && l.SnapshotStage?
    requires w.disk.lastBoot == Some(m) && Name(m) in w.disk.backups
    ensures w'.disk == w.disk
  {}

  /** When the rollback gets to its restore, m's backup is there and the newest of its deployment. */
  lemma OwnBackupAtRollback(ws: seq<World>, ls: seq<Label>, c: nat, s: nat, e: nat, m: LastBoot)
    requires Run(ws, ls) && c < s < e < |ls|
    requires CommittedAt(ws, ls, c, m) && m.deployment != ""
    requires forall k :: c < k < s ==> ws[k + 1].disk.lastBoot == ws[k].disk.lastBoot
    requires ls[s] == SnapshotStage(Ok) && ws[s].self.boot != m.boot
    requires forall k :: s < k < e ==> !TakesOver(ws, ls, k, m)
    requires !ws[e].phase.Off? && ws[e].self.deployment == m.deployment
    ensures ws[e].useBackups && m.deployment in ws[e].known
    ensures Guarded(ws[e], m)
  {
    hide Possible, Assumed, Guarded, Inv, CommittedAt, TakesOver;
    KnownThroughout(ws, ls, c, e, m);
    SnapshotGuards(ws, ls, c, s, m);
    GuardedUntil(ws, ls, s, e, m);
  }

  /** m's deployment is known all the time from its commit to a boot of it. */
  lemma KnownThroughout(ws: seq<World>, ls: seq<Label>, c: nat, e: nat, m: LastBoot)
    requires Run(ws, ls) && c <= e < |ws| && c < |ls| && CommittedAt(ws, ls, c, m) && m.deployment != ""
    requires !ws[e].phase.Off? && ws[e].self.deployment == m.deployment
    ensures forall k :: c <= k <= e ==> ws[k].useBackups && m.deployment in ws[k].known
  {
    hide Possible, Assumed;
    RunKeepsInv(ws, ls, c);
    RunKeepsInv(ws, ls, e);
    EverKnownGrows(ws, ls, c, e);
    assert ws[c].useBackups;
    hide Inv;
    forall k | c <= k <= e
      ensures ws[k].useBackups && m.deployment in ws[k].known
    {
      EverKnownGrows(ws, ls, c, k);
      KnownSince(ws, ls, c, k, e);
    }
  }

  lemma SnapshotGuards(ws: seq<World>, ls: seq<Label>, c: nat, s: nat, m: LastBoot)
    requires Run(ws, ls) && c < s < |ls| && CommittedAt(ws, ls, c, m) && m.deployment != ""
    requires forall k :: c < k < s ==> ws[k + 1].disk.lastBoot == ws[k].disk.lastBoot
    requires ls[s] == SnapshotStage(Ok) && ws[s].self.boot != m.boot
    requires ws[s].useBackups && m.deployment in ws[s].known
    ensures Guarded(ws[s + 1], m)
  {
    hide Possible, Assumed, Inv, Guarded;
    RecordedUntil(ws, c, s, m);
    RunKeepsInv(ws, ls, s);
    RunKeepsInv(ws, ls, s + 1);
    assert Next(ws[s], ls[s], ws[s + 1]);
    SnapshotTaken(ws[s], ws[s + 1], m);
  }

  // ---- the node stays recorded ----

  /** No step of the protocol but a reset takes away a record that the node was set up. */
  lemma StepKeepsRecord(w: World, l: Label, w': World)
    requires Possible(w, l, w') && State.Recorded(w.disk) && !l.Resetting?
    ensures State.Recorded(w'.disk)
  {}

  // ---- Boot's own runs ----

  /** A run goes on with any trace of Boot, and of its surroundings, whose steps are within what is assumed: all of
      the above holds of it. */
  lemma RunGoesOn(ws: seq<World>, ls: seq<Label>, ws': seq<World>, ls': seq<Label>)
    requires Run(ws, ls) && PossibleRun(ws', ls') && ws'[0] == ws[|ls|]
    requires forall i :: 0 <= i < |ls'| ==> Assumed(ws'[i], ls'[i], ws'[i + 1])
    ensures Run(ws + ws'[1..], ls + ls')
  {
    hide Possible, Assumed, Init;
    var all, labels := ws + ws'[1..], ls + ls';
    forall i | 0 <= i < |labels|
      ensures Next(all[i], labels[i], all[i + 1])
    {
      if i < |ls| {
        assert Next(ws[i], ls[i], ws[i + 1]);
      } else {
        var j := i - |ls|;
        assert all[i] == ws'[j] && all[i + 1] == ws'[j + 1];
        assert Possible(ws'[j], ls'[j], ws'[j + 1]) && Assumed(ws'[j], ls'[j], ws'[j + 1]);
      }
    }
  }

  /** The labels of a run of nanok8s that are assumed to be well behaved; about the others nothing is assumed. */
  predicate NeedsCare(l: Label) {
    l.AddDeployment? || l.CollectDeployment? || l.RestoreStage? || l.PruneStage?
  }

  /** What Boot does continues a run, if its restore and its prune, and the deployments that come and go meanwhile, are
      within what is assumed: all of the above holds of it. */
  lemma BootGoesOn(ws: seq<World>, ls: seq<Label>, ws': seq<World>, ls': seq<Label>)
    requires Run(ws, ls) && PossibleRun(ws', ls') && ws'[0] == ws[|ls|] && Adds([], ls')
    requires forall k :: 0 <= k < |ls'| && NeedsCare(ls'[k]) ==> Assumed(ws'[k], ls'[k], ws'[k + 1])
    ensures Run(ws + ws'[1..], ls + ls')
  {
    forall k | 0 <= k < |ls'|
      ensures Assumed(ws'[k], ls'[k], ws'[k + 1])
    {
      assert Own(ls'[k]);
    }
    RunGoesOn(ws, ls, ws', ls');
  }

  /** With kubelet down nothing but the restore and the gates touches live data. */
  lemma QuietStep(w: World, l: Label, w': World)
    requires Possible(w, l, w') && Own(l) && !w.kubeletUp && !l.GateStage? && !l.RestoreStage?
    ensures !w'.kubeletUp && w'.disk.live == w.disk.live
  {
    if l.SnapshotStage? {
      assert SnapshotOutcome(w.disk, w.useBackups, w.self.boot, w'.disk, l.r);
    } else if l.PruneStage? {
      hide SnapshotOutcome, CreateOutcome;
    } else {
      hide MaybeRestoreOutcome, SnapshotOutcome, PruneOutcome, Name, EventKept;
    }
  }

  lemma RestoreIsQuiet(w: World, l: Label, w': World)
    requires Possible(w, l, w') && !w.kubeletUp && l.RestoreStage?
    ensures !w'.kubeletUp
  {
    hide MaybeRestoreOutcome;
  }

  /** A run of nanok8s on a quiet node restores first, if at all, and from then to its first gate, snapshot included,
      live data stays as it is. */
  lemma {:induction false} BootSnapshotsFirst(ws: seq<World>, ls: seq<Label>, i: nat)
    requires PossibleRun(ws, ls) && Adds([], ls) && !ws[0].kubeletUp && i < |ws|
    requires forall k :: 0 <= k < i ==> !ls[k].GateStage?
    ensures !ws[i].kubeletUp
    ensures (forall k :: 0 <= k < i ==> !ls[k].RestoreStage?) ==> ws[i].disk.live == ws[0].disk.live
  {
    hide Possible;
    if i > 0 {
      BootSnapshotsFirst(ws, ls, i - 1);
      assert Possible(ws[i - 1], ls[i - 1], ws[i]) && Own(ls[i - 1]);
      if ls[i - 1].RestoreStage? {
        RestoreIsQuiet(ws[i - 1], ls[i - 1], ws[i]);
      } else {
        QuietStep(ws[i - 1], ls[i - 1], ws[i]);
      }
    }
  }
}
