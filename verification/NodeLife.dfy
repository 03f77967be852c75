/** The life of a node: bootstraps, boots with everything that can happen to them, and resets. */
module NodeLife {
  import opened FileSystem
  import opened Protocol
  import Backup
  import Bootstrap
  import Recovery
  import Safety
  import State

  /** Between resets the record is never lost, through boots, restores, prunes, power losses and forced bootstraps. */
  lemma {:induction false} RecordStays(ws: seq<World>, ls: seq<Label>, i: nat, j: nat)
    requires PossibleRun(ws, ls) && i <= j < |ws|
    requires State.Recorded(ws[i].disk)
    requires forall k :: i <= k < j ==> !ls[k].Resetting?
    ensures State.Recorded(ws[j].disk)
  {
    hide Possible;
    if i < j {
      RecordStays(ws, ls, i, j - 1);
      assert Possible(ws[j - 1], ls[j - 1], ws[j]);
      Safety.StepKeepsRecord(ws[j - 1], ls[j - 1], ws[j]);
    }
  }

  /** An unforced bootstrap of a recorded node does nothing but refuse. */
  lemma RefusedWhileRecorded(ws: seq<World>, ls: seq<Label>, i: nat, j: nat)
    requires PossibleRun(ws, ls) && i <= j < |ls|
    requires State.Recorded(ws[i].disk)
    requires forall k :: i <= k < j ==> !ls[k].Resetting?
    requires ls[j].Bootstrapping? && !ls[j].force
    ensures !ls[j].r.Ok? && ws[j + 1] == ws[j]
  {
    RecordStays(ws, ls, i, j);
    assert Possible(ws[j], ls[j], ws[j + 1]);
  }

  /** Between two unforced bootstraps that succeed there is a reset, whatever else happens. */
  lemma BootstrapOncePerReset(ws: seq<World>, ls: seq<Label>, i: nat, j: nat)
    requires PossibleRun(ws, ls) && i < j < |ls|
    requires ls[i].Bootstrapping? && ls[i].r.Ok?
    requires ls[j] == Bootstrapping(false, Ok)
    ensures exists k :: i < k < j && ls[k].Resetting?
  {
    assert Possible(ws[i], ls[i], ws[i + 1]);
    if forall k :: i < k < j ==> !ls[k].Resetting? {
      RefusedWhileRecorded(ws, ls, i + 1, j);
    }
  }

  /** A reset that succeeded leaves a node that a bootstrap accepts, even if the cluster could not be stopped. */
  lemma FreshAfterReset(ws: seq<World>, ls: seq<Label>, i: nat)
    requires PossibleRun(ws, ls) && i < |ls|
    requires ls[i] == Resetting(Ok)
    ensures !State.Existing(ws[i + 1].disk)
  {}

  /** After a reset that stopped half way the node still exists for bootstrap, unless its kubernetes tree, and with the
      cluster down all its live data, is gone: the records go last. */
  lemma HalfResetStillRefuses(ws: seq<World>, ls: seq<Label>, i: nat, j: nat)
    requires PossibleRun(ws, ls) && i < j < |ls|
    requires State.Recorded(ws[i].disk) && ls[i].Resetting?
    requires Kubernetes in ws[i + 1].disk.live || (!ws[i + 1].kubeletUp && ws[i + 1].disk.live != map[])
    requires forall k :: i < k < j ==> !ls[k].Resetting?
    requires ls[j].Bootstrapping? && !ls[j].force
    ensures !ls[j].r.Ok? && ws[j + 1] == ws[j]
  {
    assert Possible(ws[i], ls[i], ws[i + 1]);
    RefusedWhileRecorded(ws, ls, i + 1, j);
  }

  /** A forced bootstrap writes over the live data. The snapshot that the next boot takes for the last boot is still the
      one it would have taken, however the bootstrap goes, exactly when it had been taken before. */
  lemma ForcedBootstrapHarmlessIff(d: Disk)
    requires d.lastBoot.Some?
    requires Backup.Name(d.lastBoot.value) in d.backups ==> d.backups[Backup.Name(d.lastBoot.value)].Folder?
    ensures var lb := d.lastBoot.value;
            (forall up, d', r :: Bootstrap.BootstrapOutcome(d, true, up, d', r) ==>
               Backup.AfterCreate(d', lb).backups[Backup.Name(lb)].image
               == Backup.AfterCreate(d, lb).backups[Backup.Name(lb)].image)
            <==> Backup.Name(lb) in d.backups
  {
    var lb := d.lastBoot.value;
    if Backup.Name(lb) !in d.backups {
      var d' := d.(live := if Kubernetes in d.live then d.live - {Kubernetes} else d.live[Kubernetes := map[]]);
      assert Bootstrap.BootstrapOutcome(d, true, false, d', Err);
      assert Kubernetes in Snapshot(d.live) <==> Kubernetes !in Snapshot(d'.live);
    }
  }

  /** Of the three things Exists looks for only the two records are stable: with a restore under way, the node exists at
      every moment it may be cut exactly when it is recorded. The API server manifest alone does not do. */
  lemma ExistsThroughRestoreIff(d: Disk, deployment: string, name: string)
    requires Recovery.Marked(d) && deployment != "" && name != "" && Backup.IsLatest(d.backups, deployment, name)
    ensures (forall d' :: Recovery.MaybeRestoreOutcome(d, deployment, name, false, d', Crash) ==> State.Existing(d'))
            <==> State.Recorded(d)
  {
    if State.Recorded(d) {
      forall d' | Recovery.MaybeRestoreOutcome(d, deployment, name, false, d', Crash)
        ensures State.Existing(d')
      {
        assert d'.lastBoot == d.lastBoot || d'.lastBoot.Some?;
      }
    } else {
      var d' := d.(live := d.live - {Kubernetes});
      assert Unmanaged(d'.live) == Unmanaged(d.live);
      assert Recovery.RequestOutcome(d, deployment, name, false, d', Crash);
      assert !State.Existing(d');
    }
  }
}
