/** One history in which a rollback happens, so that what is proved about rollbacks is about something. */
module Scenario {
  import opened FileSystem
  import opened Backup
  import opened BackupLaws
  import Names
  import opened Recovery
  import opened Protocol
  import opened Safety

  /** The boot to go back to, the boot that follows it in another deployment, and the boot that goes back. */
  const FIRST := LastBoot("v1", "a", "1")
  const SECOND := LastBoot("v2", "b", "2")
  const THIRD := LastBoot("v1", "a", "3")
  /** A boot in a deployment without backups. */
  const FOURTH := LastBoot("v3", "c", "4")

  const DEPLOYMENTS := {"a", "b", "c"}

  function Factory(): World {
    World(Disk(map[], map[], map[], None, None, 0), Off, true, FIRST, DEPLOYMENTS, DEPLOYMENTS, false, map[], map[], {},
        {})
  }

  function Now(ws: seq<World>): World
    requires ws != []
  {
    ws[|ws| - 1]
  }

  lemma Step(ws: seq<World>, ls: seq<Label>, l: Label, w: World)
    requires Run(ws, ls) && Next(Now(ws), l, w)
    ensures Run(ws + [w], ls + [l])
  {
    RunGoesOn(ws, ls, [Now(ws), w], [l]);
    assert ws + [Now(ws), w][1..] == ws + [w];
  }

  /** Power on and start, with nothing to restore. */
  lemma PowerUp(ws: seq<World>, ls: seq<Label>, next: LastBoot) returns (ws': seq<World>, ls': seq<Label>)
    requires Run(ws, ls) && Now(ws).phase.Off? && !Now(ws).kubeletUp && Now(ws).useBackups
    requires next.deployment in Now(ws).known && ValidBootId(next.boot) && next.boot !in Now(ws).booted
    requires Covered(Now(ws)) || Intact(Now(ws))
    ensures ws <= ws'
    ensures Run(ws', ls') && ls' == ls + [PowerOn(next), Start]
    ensures Now(ws') == Now(ws).(phase := Started, self := next, booted := Now(ws).booted[next.boot := next])
  {
    var w := Now(ws).(phase := Idle, self := next, booted := Now(ws).booted[next.boot := next]);
    Step(ws, ls, PowerOn(next), w);
    Step(ws + [w], ls + [PowerOn(next)], Start, w.(phase := Started));
    ws', ls' := ws + [w] + [w.(phase := Started)], ls + [PowerOn(next)] + [Start];
  }

  /** The gates, all open, and data written behind them. */
  lemma AllOpen(ws: seq<World>, ls: seq<Label>, live: Image) returns (ws': seq<World>, ls': seq<Label>)
    requires Run(ws, ls) && Now(ws).phase == Running(0) && !Now(ws).kubeletUp
    ensures ws <= ws'
    ensures Run(ws', ls') && |ls'| == |ls| + 7
    ensures forall k :: |ls| <= k < |ls'| ==> ls'[k].GateStage? || ls'[k].ClusterWrites?
    ensures ls'[..|ls|] == ls
    ensures Now(ws') == Now(ws).(phase := Running(6), kubeletUp := true, disk := Now(ws').disk,
                                 touched := Now(ws').touched)
    ensures Now(ws').disk == Now(ws).disk.(live := live)
  {
    ws', ls' := ws, ls;
    for i := 0 to 6
      invariant ws <= ws' && Run(ws', ls') && |ls'| == |ls| + i && ls'[..|ls|] == ls
      invariant forall k :: |ls| <= k < |ls'| ==> ls'[k].GateStage?
      invariant Now(ws') == Now(ws).(phase := Running(i), kubeletUp := i > 1, touched := Now(ws').touched)
    {
      var w, l := Now(ws'), GateStage(Ok, i > 0);
      var w' := w.(phase := Running(i + 1), kubeletUp := i > 0, touched := w.touched + {w.self.boot});
      Step(ws', ls', l, w');
      ws', ls' := ws' + [w'], ls' + [l];
    }
    var w := Now(ws');
    var w' := w.(disk := w.disk.(live := live), touched := w.touched + {w.self.boot});
    Step(ws', ls', ClusterWrites(live), w');
    ws', ls' := ws' + [w'], ls' + [ClusterWrites(live)];
  }

  /** Nothing to restore and nothing to snapshot. */
  lemma NothingOwed(ws: seq<World>, ls: seq<Label>) returns (ws': seq<World>, ls': seq<Label>)
    requires Run(ws, ls) && Now(ws).phase.Started? && Now(ws).disk.lastBoot.None? && !Marked(Now(ws).disk)
    ensures ws <= ws'
    ensures Run(ws', ls') && ls' == ls + [RestoreStage("", false, Ok), SnapshotStage(Ok)]
    ensures Now(ws') == Now(ws).(phase := Running(0))
  {
    var w, l := Now(ws).(phase := Protocol.Restored), RestoreStage("", false, Ok);
    Step(ws, ls, l, w);
    Step(ws + [w], ls + [l], SnapshotStage(Ok), w.(phase := Running(0)));
    ws', ls' := ws + [w] + [w.(phase := Running(0))], ls + [l] + [SnapshotStage(Ok)];
  }

  /** A prune that fails before it removes anything, and the commit. */
  lemma CommitUp(ws: seq<World>, ls: seq<Label>) returns (ws': seq<World>, ls': seq<Label>)
    requires Run(ws, ls) && Now(ws).phase == Running(6) && Now(ws).useBackups
    ensures ws <= ws'
    ensures Run(ws', ls') && ls' == ls + [PruneStage(map[], None, Err), CommitStage(Ok)]
    ensures ws'[|ls| + 1] == Now(ws).(phase := Pruned)
    ensures var w := Now(ws);
            Now(ws') == w.(phase := Committed, disk := w.disk.(lastBoot := Some(w.self)), touched := {},
                           committed := w.committed + {w.self})
  {
    var w := Now(ws);
    RemovalThins(w.disk.backups, {}, w.disk.clock);
    assert DoomedSet(w.disk.backups, w.known, map[]) >= {};
    var pruned := w.(phase := Pruned);
    assert PruneOutcome(w.disk, w.known, map[], None, w.disk, Err);
    hide PruneOutcome;
    Step(ws, ls, PruneStage(map[], None, Err), pruned);
    var committed := pruned.(phase := Committed, touched := {}, committed := w.committed + {w.self},
                             disk := w.disk.(lastBoot := Some(w.self)));
    Step(ws + [pruned], ls + [PruneStage(map[], None, Err)], CommitStage(Ok), committed);
    ws', ls' := ws + [pruned] + [committed], ls + [PruneStage(map[], None, Err)] + [CommitStage(Ok)];
  }

  lemma Down(ws: seq<World>, ls: seq<Label>) returns (ws': seq<World>, ls': seq<Label>)
    requires Run(ws, ls) && !Now(ws).phase.Off?
    ensures ws <= ws'
    ensures Run(ws', ls') && ls' == ls + [PowerLoss] && Now(ws') == PowerOff(Now(ws))
  {
    Step(ws, ls, PowerLoss, PowerOff(Now(ws)));
    ws', ls' := ws + [PowerOff(Now(ws))], ls + [PowerLoss];
  }

  /** The next boot takes the snapshot of the last one. */
  lemma SnapshotFirst(ws: seq<World>, ls: seq<Label>) returns (ws': seq<World>, ls': seq<Label>)
    requires Run(ws, ls) && Now(ws).phase.Started? && Now(ws).useBackups && !Marked(Now(ws).disk)
    requires OwesSnapshot(Now(ws).disk, true, Now(ws).self.boot)
    ensures ws <= ws'
    ensures Run(ws', ls') && ls' == ls + [RestoreStage("", false, Ok), SnapshotStage(Ok)]
    ensures ws'[|ls| + 1] == Now(ws).(phase := Protocol.Restored)
    ensures Now(ws') == Now(ws).(phase := Running(0), disk := AfterCreate(Now(ws).disk, Now(ws).disk.lastBoot.value))
  {
    hide AfterCreate;
    var w := Now(ws);
    var restored, l := w.(phase := Protocol.Restored), RestoreStage("", false, Ok);
    Step(ws, ls, l, restored);
    var saved := w.(phase := Running(0), disk := AfterCreate(w.disk, w.disk.lastBoot.value));
    Step(ws + [restored], ls + [l], SnapshotStage(Ok), saved);
    ws', ls' := ws + [restored] + [saved], ls + [l] + [SnapshotStage(Ok)];
  }

  /** A boot whose kubelet gate fails after kubelet wrote `live`. */
  lemma FailKubelet(ws: seq<World>, ls: seq<Label>, live: Image) returns (ws': seq<World>, ls': seq<Label>)
    requires Run(ws, ls) && Now(ws).phase == Running(0) && !Now(ws).kubeletUp
    ensures ws <= ws'
    ensures Run(ws', ls') && ls' == ls + [GateStage(Ok, false), GateStage(Err, true)]
    ensures var w := Now(ws);
            Now(ws') == w.(phase := Idle, kubeletUp := true, touched := Now(ws').touched,
                           disk := w.disk.(live := live))
  {
    var w := Now(ws);
    var ensured := w.(phase := Running(1), touched := w.touched + {w.self.boot});
    Step(ws, ls, GateStage(Ok, false), ensured);
    var failed := ensured.(phase := Idle, kubeletUp := true, disk := w.disk.(live := live));
    Step(ws + [ensured], ls + [GateStage(Ok, false)], GateStage(Err, true), failed);
    ws', ls' := ws + [ensured] + [failed], ls + [GateStage(Ok, false)] + [GateStage(Err, true)];
  }

  /** The marker is placed and the machine goes down. */
  lemma MarkAndDown(ws: seq<World>, ls: seq<Label>) returns (ws': seq<World>, ls': seq<Label>)
    requires Run(ws, ls) && !Now(ws).phase.Off? && Now(ws).useBackups
    ensures ws <= ws'
    ensures Run(ws', ls') && ls' == ls + [PlaceMarker, PowerLoss]
    ensures var w := Now(ws);
            Now(ws') == w.(phase := Off, kubeletUp := false, final := w.final[w.self.boot := Snapshot(w.disk.live)],
                           disk := w.disk.(backups := w.disk.backups[MARKER := Plain]))
  {
    var w := Now(ws);
    var marked := w.(disk := w.disk.(backups := w.disk.backups[MARKER := Plain]));
    Step(ws, ls, PlaceMarker, marked);
    Step(ws + [marked], ls + [PlaceMarker], PowerLoss, PowerOff(marked));
    ws', ls' := ws + [marked] + [PowerOff(marked)], ls + [PlaceMarker] + [PowerLoss];
  }

  /** The restore that the marker asks for. */
  lemma RestoreMarked(ws: seq<World>, ls: seq<Label>, name: string) returns (ws': seq<World>, ls': seq<Label>)
    requires Run(ws, ls) && Now(ws).phase.Started? && !Now(ws).kubeletUp && Now(ws).useBackups && Marked(Now(ws).disk)
    requires Now(ws).self.deployment != "" && name != ""
            && IsLatest(Now(ws).disk.backups, Now(ws).self.deployment, name)
    requires Now(ws).disk.backups[name].meta.Some?
    ensures ws <= ws'
    ensures Run(ws', ls') && ls' == ls + [RestoreStage(name, false, Ok)]
  {
    var w, l := Now(ws), RestoreStage(name, false, Ok);
    var d := AfterRestore(w.disk, w.disk.backups[name].image).(lastBoot := w.disk.backups[name].meta);
    var d' := d.(backups := d.backups - {MARKER});
    assert d'.(backups := w.disk.backups) == d;
    assert RestoredTo(w.disk, name, d);
    assert RequestOutcome(w.disk, w.self.deployment, name, false, d, Ok);
    assert MaybeRestoreOutcome(w.disk, w.self.deployment, name, false, d', Ok);
    hide MaybeRestoreOutcome;
    Step(ws, ls, l, w.(phase := Protocol.Restored, disk := d'));
    ws', ls' := ws + [w.(phase := Protocol.Restored, disk := d')], ls + [l];
  }

  /** The first boot comes up, commits at c with `live` on disk, and goes down. */
  lemma FirstLife(live: Image) returns (ws: seq<World>, ls: seq<Label>, c: nat)
    ensures Run(ws, ls) && |ls| == c + 2 && ls[c + 1] == PowerLoss && CommittedAt(ws, ls, c, FIRST)
    ensures var w := Now(ws);
            && w.phase.Off? && !w.kubeletUp && w.useBackups && w.known == DEPLOYMENTS
            && w.booted == map["1" := FIRST] && w.final == map["1" := Snapshot(live)]
            && w.disk == Disk(live, map[], map[], Some(FIRST), None, 0)
  {
    hide Possible, Assumed;
    ws, ls := [Factory()], [];
    ws, ls := PowerUp(ws, ls, FIRST);
    ws, ls := NothingOwed(ws, ls);
    ws, ls := AllOpen(ws, ls, live);
    c := |ls| + 1;
    ws, ls := CommitUp(ws, ls);
    ws, ls := Down(ws, ls);
  }

  /** The second boot takes the snapshot at s, writes `live'`, fails and goes down marked. */
  lemma SecondLife(live: Image, live': Image) returns (ws: seq<World>, ls: seq<Label>, c: nat, s: nat)
    ensures Run(ws, ls) && c + 5 == s && |ls| == s + 5 && CommittedAt(ws, ls, c, FIRST)
    ensures ls[s] == SnapshotStage(Ok) && ws[s].self == SECOND
    ensures forall k :: c < k < |ls| ==> !ls[k].CommitStage? && !Picks(ls[k]) && !ls[k].Resetting?
    ensures var w := Now(ws);
            && w.phase.Off? && !w.kubeletUp && w.useBackups && w.known == DEPLOYMENTS
            && w.booted == map["1" := FIRST]["2" := SECOND]
            && w.disk == AfterCreate(Disk(live, map[], map[], Some(FIRST), None, 0), FIRST).(live := live',
                 backups := AfterCreate(Disk(live, map[], map[], Some(FIRST), None, 0), FIRST).backups[MARKER := Plain])
  {
    hide Possible, Assumed, AfterCreate;
    ws, ls, c := FirstLife(live);
    ws, ls := PowerUp(ws, ls, SECOND);
    s := |ls| + 1;
    ws, ls := SnapshotFirst(ws, ls);
    ws, ls := FailKubelet(ws, ls, live');
    ws, ls := MarkAndDown(ws, ls);
  }

  /** The first boot commits and goes down, the second takes its snapshot and fails, the third restores:
      everything that the rollback theorem asks of a run, and what it promises. */
  lemma RollbackHappens(live: Image, live': Image)
    returns (ws: seq<World>, ls: seq<Label>, c: nat, s: nat, e: nat, j: nat)
    ensures Run(ws, ls) && c < s < e < |ls| && CommittedAt(ws, ls, c, FIRST)
    ensures forall k :: c < k < s ==> ws[k + 1].disk.lastBoot == ws[k].disk.lastBoot
    ensures ls[s] == SnapshotStage(Ok) && ws[s].self == SECOND
    ensures forall k :: s < k < e ==> !TakesOver(ws, ls, k, FIRST)
    ensures ls[e].RestoreStage? && ls[e].r.Ok? && Marked(ws[e].disk) && ws[e].self == THIRD
    ensures c < j <= e && WentDown(ws, j, FIRST) && Snapshot(ws[e + 1].disk.live) == Snapshot(ws[j].disk.live)
  {
    hide Possible, Assumed;
    ws, ls, c, s := SecondLife(live, live');
    CoveredAndLatest(Now(ws), live, live');
    ws, ls := PowerUp(ws, ls, THIRD);
    e := |ls|;
    ws, ls := RestoreMarked(ws, ls, Name(FIRST));
    forall k | c < k < s
      ensures ws[k + 1].disk.lastBoot == ws[k].disk.lastBoot
    {
      assert Next(ws[k], ls[k], ws[k + 1]);
      LastBootStays(ws[k], ls[k], ws[k + 1]);
    }
    j := Rollback(ws, ls, c, s, e, FIRST);
  }

  lemma CoveredAndLatest(w: World, live: Image, live': Image)
    requires w.disk == AfterCreate(Disk(live, map[], map[], Some(FIRST), None, 0), FIRST).(live := live',
                 backups := AfterCreate(Disk(live, map[], map[], Some(FIRST), None, 0), FIRST).backups[MARKER := Plain])
    ensures Covered(w) && Marked(w.disk)
    ensures IsLatest(w.disk.backups, "a", Name(FIRST)) && w.disk.backups[Name(FIRST)].meta.Some?
  {
    assert Name(FIRST) == "a_1";
    assert Listed(w.disk.backups, "a_1");
  }

  /** While a boot runs the deployment `id` is collected and its backups are pruned. */
  lemma CollectAndPrune(ws: seq<World>, ls: seq<Label>, id: string) returns (ws': seq<World>, ls': seq<Label>)
    requires Run(ws, ls) && Now(ws).phase == Running(6) && Now(ws).useBackups && id != Now(ws).self.deployment
    requires forall n :: n in Now(ws).disk.backups && Listed(Now(ws).disk.backups, n) ==>
            Names.Before(n) !in Now(ws).known - {id}
    ensures ws <= ws' && Run(ws', ls')
    ensures var w := Now(ws);
            Now(ws') == w.(phase := Pruned, known := w.known - {id},
                           disk := w.disk.(backups := PrunedBy(w.disk.backups, w.known - {id}, map[])))
  {
    var w := Now(ws);
    var collected := w.(known := w.known - {id});
    Step(ws, ls, CollectDeployment(id), collected);
    var us, ks := ws + [collected], ls + [CollectDeployment(id)];
    var d := w.disk.(backups := PrunedBy(w.disk.backups, collected.known, map[]));
    RemovalThins(w.disk.backups, DoomedSet(w.disk.backups, collected.known, map[]), w.disk.clock);
    assert PruneOutcome(w.disk, collected.known, map[], None, d, Ok);
    hide PruneOutcome, PrunedBy;
    Step(us, ks, PruneStage(map[], None, Ok), collected.(phase := Pruned, disk := d));
    ws', ls' := us + [collected.(phase := Pruned, disk := d)], ks + [PruneStage(map[], None, Ok)];
  }

  /** ... then the commit fails, and nanok8s is started again beside the running cluster. */
  lemma CollectAndRetry(ws: seq<World>, ls: seq<Label>, id: string) returns (ws': seq<World>, ls': seq<Label>)
    requires Run(ws, ls) && Now(ws).phase == Running(6) && Now(ws).useBackups && id != Now(ws).self.deployment
    requires Now(ws).disk.lastBoot != Some(Now(ws).self)
    requires forall n :: n in Now(ws).disk.backups && Listed(Now(ws).disk.backups, n) ==>
            Names.Before(n) !in Now(ws).known - {id}
    ensures ws <= ws' && Run(ws', ls')
    ensures var w := Now(ws);
            Now(ws') == w.(phase := Started, known := w.known - {id},
                           disk := w.disk.(backups := PrunedBy(w.disk.backups, w.known - {id}, map[])))
  {
    ws', ls' := CollectAndPrune(ws, ls, id);
    hide PrunedBy;
    var pruned := Now(ws');
    Step(ws', ls', CommitStage(Err), pruned.(phase := Idle));
    ws', ls' := ws' + [pruned.(phase := Idle)], ls' + [CommitStage(Err)];
    Step(ws', ls', Start, pruned.(phase := Started));
    ws', ls' := ws' + [pruned.(phase := Started)], ls' + [Start];
  }

  /** The second boot takes the snapshot and brings the cluster up; then the first boot's deployment goes, with the
      snapshot, and nanok8s starts again. */
  lemma RetriedBeside(live: Image, live': Image) returns (ws: seq<World>, ls: seq<Label>)
    ensures Run(ws, ls)
    ensures var w := Now(ws);
            && w.phase.Started? && w.kubeletUp && w.useBackups && w.known == DEPLOYMENTS - {"a"} && w.self == SECOND
            && "1" in w.final && w.final["1"] == Snapshot(live)
            && w.disk == Disk(live', map[], map[], Some(FIRST), None, 1)
  {
    hide Possible, Assumed, PrunedBy, AfterCreate, Snapshot;
    var c;
    ws, ls, c := FirstLife(live);
    ws, ls := PowerUp(ws, ls, SECOND);
    ws, ls := SnapshotFirst(ws, ls);
    ws, ls := AllOpen(ws, ls, live');
    OnlyFirst(live, live', Now(ws).disk);
    ws, ls := CollectAndRetry(ws, ls, "a");
  }

  /** What the snapshot results leave open for collected deployments does happen: a snapshot of the last boot taken
      beside the running cluster, of data that boot never had. */
  lemma SnapshotBesideCluster(live: Image, live': Image) returns (ws: seq<World>, ls: seq<Label>, i: nat)
    ensures Run(ws, ls) && i < |ls| && ls[i] == SnapshotStage(Ok) && ws[i].kubeletUp
    ensures ws[i].disk.lastBoot == Some(FIRST) && FIRST.deployment !in ws[i].known && "1" in ws[i].final
    ensures ws[i].final["1"] == Snapshot(live) && Name(FIRST) in ws[i + 1].disk.backups
    ensures ws[i + 1].disk.backups[Name(FIRST)] == Folder(Snapshot(live'), Some(FIRST), 1)
  {
    hide Possible, Assumed, Snapshot;
    ws, ls := RetriedBeside(live, live');
    i := |ls| + 1;
    ws, ls := SnapshotFirst(ws, ls);
  }

  /** The snapshot of the first boot is the only backup, and goes with its deployment. */
  lemma OnlyFirst(live: Image, live': Image, d: Disk)
    requires d == AfterCreate(Disk(live, map[], map[], Some(FIRST), None, 0), FIRST).(live := live')
    ensures d == Disk(live', map[], d.backups, Some(FIRST), None, 1)
    ensures forall n :: n in d.backups && Listed(d.backups, n) ==> Names.Before(n) !in DEPLOYMENTS - {"a"}
    ensures PrunedBy(d.backups, DEPLOYMENTS - {"a"}, map[]) == map[]
  {
    Names.CutInvertsJoin("a", "1");
    assert Name(FIRST) == "a_1";
    assert Listed(d.backups, "a_1");
  }

  // ---- what the hypotheses on restores are needed for ----

  /** A history in which the step at `but` is the only one outside of what is assumed. */
  ghost predicate RunBut(ws: seq<World>, ls: seq<Label>, but: nat) {
    && PossibleRun(ws, ls) && Init(ws[0])
    && forall k :: 0 <= k < |ls| && k != but ==> Assumed(ws[k], ls[k], ws[k + 1])
  }

  lemma StepBut(ws: seq<World>, ls: seq<Label>, l: Label, w: World, but: nat)
    requires RunBut(ws, ls, but) && Possible(Now(ws), l, w) && (but == |ls| || Assumed(Now(ws), l, w))
    ensures RunBut(ws + [w], ls + [l], but)
  {
    hide Possible, Assumed, Init;
    var ws', ls' := ws + [w], ls + [l];
    forall k | 0 <= k < |ls'|
      ensures Possible(ws'[k], ls'[k], ws'[k + 1]) && (k != but ==> Assumed(ws'[k], ls'[k], ws'[k + 1]))
    {
      if k < |ls| {
        assert ws'[k] == ws[k] && ws'[k + 1] == ws[k + 1];
      }
    }
  }

  lemma RunIsRunBut(ws: seq<World>, ls: seq<Label>, but: nat)
    requires Run(ws, ls)
    ensures RunBut(ws, ls, but)
  {
    hide Possible, Assumed, Init;
    forall k | 0 <= k < |ls|
      ensures Possible(ws[k], ls[k], ws[k + 1]) && Assumed(ws[k], ls[k], ws[k + 1])
    {
      assert Next(ws[k], ls[k], ws[k + 1]);
    }
  }

  /** The disk with the backup of the first boot, and the second boot, committed, on record. */
  ghost function Upgraded(live: Image, live': Image): Disk {
    AfterCreate(Disk(live, map[], map[], Some(FIRST), None, 0), FIRST).(live := live', lastBoot := Some(SECOND))
  }

  /** The second boot commits, is marked for a rollback all the same, and goes down; the third comes up for the first's
      deployment. */
  lemma RollbackAfterCommit(live: Image, live': Image) returns (ws: seq<World>, ls: seq<Label>)
    ensures Run(ws, ls)
    ensures var w := Now(ws);
            && w.phase.Started? && !w.kubeletUp && w.useBackups && w.known == DEPLOYMENTS && w.self == THIRD
            && "2" in w.final && w.final["2"] == Snapshot(live') && FOURTH.boot !in w.booted
            && w.disk == Upgraded(live, live').(backups := Upgraded(live, live').backups[MARKER := Plain])
  {
    hide Possible, Assumed, AfterCreate, Snapshot, Covered;
    var c;
    ws, ls, c := FirstLife(live);
    ws, ls := PowerUp(ws, ls, SECOND);
    ws, ls := SnapshotFirst(ws, ls);
    ws, ls := AllOpen(ws, ls, live');
    ws, ls := CommitUp(ws, ls);
    ws, ls := MarkAndDown(ws, ls);
    ws, ls := PowerUp(ws, ls, THIRD);
  }

  /** What is on that disk: a candidate for deployment a, none for c, and no backup of the second boot. */
  lemma UpgradedEntries(live: Image, live': Image)
    ensures var b := Upgraded(live, live').backups[MARKER := Plain];
            && IsLatest(b, "a", Name(FIRST)) && IsLatest(b, "c", "") && Name(SECOND) !in b && Name(FIRST) != ""
            && b[Name(FIRST)] == Folder(Snapshot(live), Some(FIRST), 0)
  {
    assert Name(FIRST) == "a_1" && Name(SECOND) == "b_2";
    var b := Upgraded(live, live').backups[MARKER := Plain];
    assert Listed(b, "a_1");
    assert forall n :: n in b ==> n == "a_1" || n == MARKER;
    assert "a_1"[0] != "c_"[0];
  }

  /** With the marker gone, the snapshot under the second boot's name is taken of whatever is live. */
  lemma SnapshotOfWhatever(ws: seq<World>, ls: seq<Label>, but: nat) returns (ws': seq<World>, ls': seq<Label>)
    requires RunBut(ws, ls, but) && Now(ws).phase.Restored? && OwesSnapshot(Now(ws).disk, true, Now(ws).self.boot)
    requires Now(ws).useBackups && Name(Now(ws).disk.lastBoot.value) !in Now(ws).disk.backups
    ensures ls <= ls' && RunBut(ws', ls', but)
    ensures Now(ws') == Now(ws).(phase := Running(0), disk := AfterCreate(Now(ws).disk, Now(ws).disk.lastBoot.value))
  {
    var w := Now(ws);
    var w' := w.(phase := Running(0), disk := AfterCreate(w.disk, w.disk.lastBoot.value));
    StepBut(ws, ls, SnapshotStage(Ok), w', but);
    ws', ls' := ws + [w'], ls + [SnapshotStage(Ok)];
  }

  /** The backup of the second boot is not what that boot left, although its deployment is there. */
  ghost predicate Lost(w: World) {
    && SECOND.deployment in w.known && SECOND.boot in w.final
    && Name(SECOND) in w.disk.backups && w.disk.backups[Name(SECOND)].Folder?
    && w.disk.backups[Name(SECOND)].meta == Some(SECOND)
    && w.disk.backups[Name(SECOND)].image != w.final[SECOND.boot]
  }

  /** The restore that fails half way. */
  const FAILED_RESTORE := RestoreStage("a_1", true, Err)

  lemma RestoreFails(ws: seq<World>, ls: seq<Label>, live: Image, live': Image)
      returns (ws': seq<World>, ls': seq<Label>)
    requires Run(ws, ls) && Exposed(live', Snapshot(live))
    requires var w := Now(ws); w.phase.Started? && w.useBackups && w.self == THIRD
    requires Now(ws).disk == Upgraded(live, live').(backups := Upgraded(live, live').backups[MARKER := Plain])
    ensures RunBut(ws', ls', |ls|) && ls' == ls + [FAILED_RESTORE]
    ensures Now(ws') == Now(ws).(phase := Idle,
            disk := Upgraded(live, live').(live := Disturbed(live', Snapshot(live))))
  {
    var w := Now(ws);
    UpgradedEntries(live, live');
    UpgradedUnmarked(live, live');
    assert Name(FIRST) == "a_1";
    var d := Upgraded(live, live').(live := Disturbed(live', Snapshot(live)));
    hide Upgraded, Disturbed, IsLatest, Possible, Assumed, RunBut, Exposed, Snapshot;
    FailedRestoreIsPossible(w.disk, "a", "a_1", d);
    FailedRestoreIsAStep(w, d);
    RunIsRunBut(ws, ls, |ls|);
    StepBut(ws, ls, FAILED_RESTORE, w.(phase := Idle, disk := d), |ls|);
    ws', ls' := ws + [w.(phase := Idle, disk := d)], ls + [FAILED_RESTORE];
  }

  lemma UpgradedUnmarked(live: Image, live': Image)
    ensures MARKER !in Upgraded(live, live').backups
    ensures Upgraded(live, live').backups[MARKER := Plain] - {MARKER} == Upgraded(live, live').backups
    ensures Upgraded(live, live').live == live'
  {
    assert Name(FIRST) == "a_1";
  }

  lemma FailedRestoreIsAStep(w: World, d: Disk)
    requires w.phase.Started? && w.useBackups
    requires MaybeRestoreOutcome(w.disk, w.self.deployment, "a_1", true, d, Err)
    ensures Possible(w, FAILED_RESTORE, w.(phase := Idle, disk := d))
  {
    hide MaybeRestoreOutcome;
  }

  lemma FailedRestoreIsPossible(d: Disk, deployment: string, name: string, d': Disk)
    requires Marked(d) && deployment != "" && name != "" && IsLatest(d.backups, deployment, name)
    requires d' == d.(live := d'.live, backups := d.backups - {MARKER}) && Unmanaged(d'.live) == Unmanaged(d.live)
    requires forall m :: Managed(m) ==> PartWay(d.live, d.backups[name].image, d'.live, m)
    ensures MaybeRestoreOutcome(d, deployment, name, true, d', Err)
  {
    assert d'.(backups := d.backups) == d.(live := d'.live);
    assert RequestOutcome(d, deployment, name, true, d.(live := d'.live), Err);
  }

  /** An error in the middle of a restore costs the data of the recorded boot: nothing else in this history is out of
      the ordinary. */
  lemma RestoreErrorCostsData(live: Image, live': Image) returns (ws: seq<World>, ls: seq<Label>, but: nat)
    requires Exposed(live', Snapshot(live))
    ensures RunBut(ws, ls, but) && but < |ls| && ls[but] == FAILED_RESTORE && Lost(Now(ws))
  {
    hide Possible, Assumed, RunBut, Exposed, Disturbed, Snapshot;
    ws, ls := RollbackAfterCommit(live, live');
    UpgradedEntries(live, live');
    but := |ls|;
    ws, ls := RestoreFails(ws, ls, live, live');
    ws, ls := StartUnmarked(ws, ls, but);
    ws, ls := SnapshotOfWhatever(ws, ls, but);
  }

  lemma StartUnmarked(ws: seq<World>, ls: seq<Label>, but: nat) returns (ws': seq<World>, ls': seq<Label>)
    requires RunBut(ws, ls, but) && Now(ws).phase.Idle? && Now(ws).useBackups && !Marked(Now(ws).disk)
    ensures ls <= ls' && RunBut(ws', ls', but) && Now(ws') == Now(ws).(phase := Protocol.Restored)
  {
    var w := Now(ws);
    StepBut(ws, ls, Start, w.(phase := Started), but);
    ws', ls' := ws + [w.(phase := Started)], ls + [Start];
    StepBut(ws', ls', RestoreStage("", false, Ok), w.(phase := Protocol.Restored), but);
    ws', ls' := ws' + [w.(phase := Protocol.Restored)], ls' + [RestoreStage("", false, Ok)];
  }

  /** The boot into a deployment that has no backup. */
  const SWITCH := PowerOn(FOURTH)

  lemma RestoreIsCut(ws: seq<World>, ls: seq<Label>, live: Image, live': Image)
      returns (ws': seq<World>, ls': seq<Label>)
    requires Run(ws, ls) && Exposed(live', Snapshot(live))
    requires var w := Now(ws); w.phase.Started? && w.useBackups && w.self == THIRD && !w.kubeletUp
    requires Now(ws).disk == Upgraded(live, live').(backups := Upgraded(live, live').backups[MARKER := Plain])
    ensures Run(ws', ls')
    ensures Now(ws') == PowerOff(Now(ws).(disk := Now(ws).disk.(live := Disturbed(live', Snapshot(live)))))
  {
    var w := Now(ws);
    UpgradedEntries(live, live');
    assert Name(FIRST) == "a_1";
    var l := RestoreStage("a_1", false, Crash);
    var d := w.disk.(live := Disturbed(live', Snapshot(live)));
    assert RequestOutcome(w.disk, "a", "a_1", false, d, Crash);
    hide RequestOutcome, Upgraded, Disturbed;
    Step(ws, ls, l, PowerOff(w.(disk := d)));
    ws', ls' := ws + [PowerOff(w.(disk := d))], ls + [l];
  }

  /** The marker is used up by a deployment that has nothing to restore. */
  lemma SwitchUsesMarkerUp(ws: seq<World>, ls: seq<Label>) returns (ws': seq<World>, ls': seq<Label>)
    requires Run(ws, ls) && Now(ws).phase.Off? && !Now(ws).kubeletUp && Now(ws).useBackups && Marked(Now(ws).disk)
    requires FOURTH.deployment in Now(ws).known && IsLatest(Now(ws).disk.backups, FOURTH.deployment, "")
    ensures RunBut(ws', ls', |ls|) && |ls| < |ls'| && ls'[|ls|] == SWITCH
    ensures var w := Now(ws);
            Now(ws') == w.(phase := Protocol.Restored, self := FOURTH, booted := w.booted[FOURTH.boot := FOURTH],
                           disk := w.disk.(backups := w.disk.backups - {MARKER}))
  {
    var w := Now(ws).(phase := Idle, self := FOURTH, booted := Now(ws).booted[FOURTH.boot := FOURTH]);
    RunIsRunBut(ws, ls, |ls|);
    StepBut(ws, ls, SWITCH, w, |ls|);
    ws', ls' := ws + [w], ls + [SWITCH];
    StepBut(ws', ls', Start, w.(phase := Started), |ls|);
    ws', ls' := ws' + [w.(phase := Started)], ls' + [Start];
    var l, d := RestoreStage("", false, Ok), w.disk.(backups := w.disk.backups - {MARKER});
    assert d.(backups := w.disk.backups) == w.disk;
    assert RequestOutcome(w.disk, "c", "", false, w.disk, Ok);
    assert MaybeRestoreOutcome(w.disk, "c", "", false, d, Ok);
    hide MaybeRestoreOutcome, IsLatest;
    StepBut(ws', ls', l, w.(phase := Protocol.Restored, disk := d), |ls|);
    ws', ls' := ws' + [w.(phase := Protocol.Restored, disk := d)], ls' + [l];
  }

  /** So does a cut restore after which the machine comes up in a deployment without a backup. */
  lemma SwitchedDeploymentCostsData(live: Image, live': Image) returns (ws: seq<World>, ls: seq<Label>, but: nat)
    requires Exposed(live', Snapshot(live))
    ensures RunBut(ws, ls, but) && but < |ls| && ls[but] == SWITCH && Lost(Now(ws))
  {
    hide Possible, Assumed, RunBut, Exposed, Disturbed, Snapshot, IsLatest;
    ws, ls := RollbackAfterCommit(live, live');
    UpgradedEntries(live, live');
    ws, ls := RestoreIsCut(ws, ls, live, live');
    but := |ls|;
    ws, ls := SwitchUsesMarkerUp(ws, ls);
    ws, ls := SnapshotOfWhatever(ws, ls, but);
  }
}
