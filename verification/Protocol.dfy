/** The boot protocol as a transition system: every stage of lifecycle.Boot, every power loss or kill inside a stage,
    and everything the surroundings do in between. */
module Protocol {
  import opened FileSystem
  import opened Names
  import opened Backup
  import opened Recovery
  import opened BackupLaws
  import Bootstrap
  import Reset

  /** The gates of a boot, in order. */
  const GATES: seq<Gate> := [Artifacts, Kubelet, Readyz, AdminRbac, ControlPlane, MarkNode]

  /** How far the machine, and the current run of nanok8s on it, has got. */
  datatype Phase =
    | Off | Idle | Started | Restored | Running(gates: nat) | Pruned | Committed | Healthy

  /** The machine and its history. `self` names what is booted: nanok8s version, deployment and kernel boot. */
  datatype World = World(
    disk: Disk,
    phase: Phase,
    useBackups: bool,
    self: LastBoot,
    known: set<string>,
    everKnown: set<string>,
    kubeletUp: bool,
    /** Every kernel boot so far, by boot id. */
    booted: map<string, LastBoot>,
    /** The live data as each finished kernel boot left it. */
    final: map<string, Image>,
    /** The boots that committed. */
    committed: set<LastBoot>,
    /** The boots in which Ensure, kubelet or a bootstrap wrote live data since last-boot was last committed. */
    touched: set<string>)

  datatype Label =
    | PowerOn(next: LastBoot)
    | PowerLoss
    | ClusterWrites(live: Image)
    | AddDeployment(id: string)
    | CollectDeployment(id: string)
    | PlaceMarker
    | Bootstrapping(force: bool, r: Outcome)
    | Resetting(r: Outcome)
    | Start
    | Abort
    | RestoreStage(name: string, failed: bool, r: Outcome)
    | SnapshotStage(r: Outcome)
    | GateStage(r: Outcome, up: bool)
    | PruneStage(head: map<string, string>, torn: Option<string>, r: Outcome)
    | CommitStage(r: Outcome)
    | AnnounceStage(r: Outcome)

  /** The machine goes down; what is live now is what this boot leaves. */
  function PowerOff(w: World): World {
    w.(phase := Off, kubeletUp := false, final := w.final[w.self.boot := Snapshot(w.disk.live)])
  }

  /** A stage ended with this disk: on to the next phase, out of nanok8s, or down. */
  function Ended(w: World, d: Disk, r: Outcome, next: Phase): World {
    match r
    case Ok => w.(disk := d, phase := next)
    case Err => w.(disk := d, phase := Idle)
    case Crash => PowerOff(w.(disk := d))
  }

  /** ... or, if it was cut, nanok8s was killed there and the machine stayed up. */
  predicate Ends(w: World, d: Disk, r: Outcome, next: Phase, w': World) {
    w' == Ended(w, d, r, next) || (r.Crash? && w' == Ended(w, d, Err, next))
  }

  /** What a gate adds to the history. */
  function Gating(w: World, up: bool): World {
    w.(kubeletUp := up, touched := w.touched + {w.self.boot})
  }

  /** What a commit adds to the history, if it got as far as the record. */
  function Committing(w: World, d: Disk): World {
    if d.lastBoot == Some(w.self) then w.(touched := {}, committed := w.committed + {w.self}) else w
  }

  /** What the program and its surroundings can do. */
  ghost predicate Possible(w: World, l: Label, w': World) {
    match l
    case PowerOn(next) =>
      && w.phase.Off?
      && (if w.useBackups then next.deployment in w.known else next.deployment == "")
      && w' == w.(phase := Idle, self := next, booted := w.booted[next.boot := next])
    case PowerLoss =>
      !w.phase.Off? && w' == PowerOff(w)
    case ClusterWrites(live) =>
      w.kubeletUp && w' == w.(disk := w.disk.(live := live), touched := w.touched + {w.self.boot})
    case AddDeployment(id) =>
      !w.phase.Off? && w' == w.(known := w.known + {id}, everKnown := w.everKnown + {id})
    case CollectDeployment(id) =>
      !w.phase.Off? && w' == w.(known := w.known - {id})
    case PlaceMarker =>
      !w.phase.Off? && w.useBackups && w' == w.(disk := w.disk.(backups := w.disk.backups[MARKER := Plain]))
    case Bootstrapping(force, r) =>
      && !w.phase.Off?
      && Bootstrap.BootstrapOutcome(w.disk, force, w.kubeletUp, w'.disk, r)
      && w' == w.(disk := w'.disk,
                  touched := if w'.disk.live == w.disk.live then w.touched else w.touched + {w.self.boot})
    case Resetting(r) =>
      && !w.phase.Off?
      && (exists live :: ResetFrom(w, live, w'.kubeletUp, w'.disk, r))
      && (w'.kubeletUp ==> w.kubeletUp)
      && w' == w.(phase := if r.Ok? then Idle else w.phase, disk := w'.disk, kubeletUp := w'.kubeletUp,
                  touched := if w'.disk.live == w.disk.live then w.touched else w.touched + {w.self.boot})
    case Start =>
      (w.phase.Idle? || w.phase.Healthy?) && w' == w.(phase := Started)
    case Abort =>
      !w.phase.Off? && w' == w.(phase := Idle)
    case RestoreStage(name, failed, r) =>
      && w.phase.Started?
      && (if w.useBackups then MaybeRestoreOutcome(w.disk, w.self.deployment, name, failed, w'.disk, r)
          else name == "" && !failed && r.Ok? && w'.disk == w.disk)
      && Ends(w, w'.disk, r, Restored, w')
    case SnapshotStage(r) =>
      && w.phase.Restored?
      && SnapshotOutcome(w.disk, w.useBackups, w.self.boot, w'.disk, r)
      && Ends(w, w'.disk, r, Running(0), w')
    case GateStage(r, up) =>
      && w.phase.Running? && w.phase.gates < |GATES|
      && (var gate := GATES[w.phase.gates];
          && GateWrites(w.disk, up, w'.disk)
          && (w.kubeletUp ==> up)
          && (up && !w.kubeletUp ==> gate.Kubelet?)
          && (gate.Kubelet? && r.Ok? ==> up)
          && Ends(Gating(w, up), w'.disk, r, Running(w.phase.gates + 1), w'))
    case PruneStage(head, torn, r) =>
      && w.phase == Running(|GATES|)
      && (if w.useBackups then PruneOutcome(w.disk, w.known, head, torn, w'.disk, r)
          else torn.None? && r.Ok? && w'.disk == w.disk)
      && Ends(w, w'.disk, if r.Err? then Ok else r, Pruned, w')
    case CommitStage(r) =>
      && w.phase.Pruned?
      && (var done := w.disk.(lastBoot := Some(w.self));
          && (r.Ok? ==> w'.disk == done)
          && (r.Err? ==> w'.disk == w.disk)
          && (r.Crash? ==> w'.disk in {w.disk, done}))
      && Ends(Committing(w, w'.disk), w'.disk, r, Committed, w')
    case AnnounceStage(r) =>
      && w.phase.Committed? && !r.Err?
      && w'.disk == w.disk.(lastEvent := w'.disk.lastEvent) && EventKept(w.disk, w'.disk)
      && Ends(w, w'.disk, r, Healthy, w')
  }

  /** A reset, with `live` on disk when the cluster was stopped, as far as it could be. */
  ghost predicate ResetFrom(w: World, live: Image, up: bool, d: Disk, r: Outcome) {
    && (w.kubeletUp || live == w.disk.live) && SameAt(w.disk.live, live, Kubernetes)
    && Reset.ResetOutcome(w.disk.(live := live), !up, d, r)
  }

  /** A gate may write the last event and live data; etcd's own tree only once kubelet runs. */
  ghost predicate GateWrites(d: Disk, up: bool, d': Disk) {
    && d' == d.(live := d'.live, lastEvent := d'.lastEvent) && EventKept(d, d')
    && (!up ==> (Etcd in d.live <==> Etcd in d'.live) && (Etcd in d.live ==> d'.live[Etcd] == d.live[Etcd]))
  }

  /** The data of the last boot is out of harm's way: its backup exists, or nobody will ever ask for it. */
  ghost predicate Covered(w: World) {
    var lastBoot := w.disk.lastBoot;
    || lastBoot.None?
    || !Nameable(lastBoot.value)
    || lastBoot.value.deployment !in w.known
    || Name(lastBoot.value) in w.disk.backups
  }

  /** The live data is what the last boot left. */
  ghost predicate Intact(w: World) {
    var lastBoot := w.disk.lastBoot;
    && lastBoot.Some? && lastBoot.value.boot in w.final
    && Snapshot(w.disk.live) == w.final[lastBoot.value.boot]
  }

  /** The last boot is this one. */
  predicate Current(w: World) {
    !w.phase.Off? && w.disk.lastBoot.Some? && w.disk.lastBoot.value.boot == w.self.boot
  }

  predicate ValidBootId(b: string) {
    b != "" && !HasSuffix(b, TMP_SUFFIX) && !HasSuffix(b, RESTORING_SUFFIX)
  }

  /** What the code relies on. */
  ghost predicate Assumed(w: World, l: Label, w': World) {
    match l
    case PowerOn(next) =>
      // Boot ids are fresh, and an uncovered, half-restored node comes up in a deployment that has a backup.
      && ValidBootId(next.boot) && next.boot !in w.booted
      && (!Covered(w) && !Intact(w) ==>
            || next.deployment == w.self.deployment
            || (next.deployment != "" && HasCandidate(w.disk.backups, next.deployment)))
    case AddDeployment(id) =>
      id !in w.everKnown && '_' !in id
    case CollectDeployment(id) =>
      id != w.self.deployment
    case Bootstrapping(force, r) =>
      // An operator does not write over the only copy of the last boot's data.
      w'.disk.live != w.disk.live ==> Secured(w)
    case Resetting(r) =>
      // A reset that is not completed leaves backups and records, and writes over no only copy either.
      r.Ok? || (&& w'.disk == w.disk.(live := w'.disk.live, staged := w'.disk.staged)
                && (w'.disk.live != w.disk.live ==> Secured(w)))
    case RestoreStage(name, failed, r) =>
      // A marker is not consumed beside a running cluster, and an error after it was found comes when the last boot is
      // covered, or before live data is touched, or leaves the marker in place.
      && (w.useBackups && Marked(w.disk) ==> !w.kubeletUp)
      && (failed ==> Covered(w) || Intact(w.(disk := w'.disk)) || Marked(w'.disk))
    case PruneStage(head, torn, r) =>
      // A removal is not cut in the middle of a backup of a deployment that is still known.
      torn.Some? ==> Before(torn.value) !in w.known
    case _ => true
  }

  ghost predicate Next(w: World, l: Label, w': World) {
    Possible(w, l, w') && Assumed(w, l, w')
  }

  /** A node that has never completed a boot. */
  ghost predicate Init(w: World) {
    && w.phase.Off? && !w.kubeletUp
    && w.disk.lastBoot.None? && w.disk.backups == map[]
    && w.known == w.everKnown && (forall d :: d in w.known ==> '_' !in d)
    && w.booted == map[] && w.final == map[] && w.committed == {} && w.touched == {}
  }

  ghost predicate PossibleRun(ws: seq<World>, ls: seq<Label>) {
    && |ws| == |ls| + 1
    && forall i :: 0 <= i < |ls| ==> Possible(ws[i], ls[i], ws[i + 1])
  }

  ghost predicate Run(ws: seq<World>, ls: seq<Label>) {
    && |ws| == |ls| + 1
    && Init(ws[0])
    && forall i :: 0 <= i < |ls| ==> Next(ws[i], ls[i], ws[i + 1])
  }

  /** The stages of nanok8s, as opposed to what happens around it. */
  predicate IsStage(l: Label) {
    l.RestoreStage? || l.SnapshotStage? || l.GateStage? || l.PruneStage? || l.CommitStage? || l.AnnounceStage?
  }

  /** What one run of nanok8s consists of: its stages, the cluster writing and deployments coming and going beside them,
      and its end. It does not start over, bootstrap, or place the marker. */
  predicate Own(l: Label) {
    IsStage(l) || l.ClusterWrites? || l.AddDeployment? || l.CollectDeployment? || l.PowerLoss? || l.Abort?
  }

  /** The run was continued by a run of nanok8s. */
  ghost predicate Adds(ls: seq<Label>, ls': seq<Label>) {
    ls <= ls' && forall k :: |ls| <= k < |ls'| ==> Own(ls'[k])
  }

  // ---- the invariant ----

  ghost predicate IdsInv(w: World) {
    && (forall d :: d in w.known ==> '_' !in d && d in w.everKnown)
    && (forall b :: b in w.booted ==>
          && w.booted[b].boot == b && ValidBootId(b)
          && '_' !in w.booted[b].deployment
          && (if w.useBackups then w.booted[b].deployment in w.everKnown else w.booted[b].deployment == ""))
    && (forall b :: b in w.final ==> b in w.booted && Snapshot(w.final[b]) == w.final[b])
    && (!w.phase.Off? ==>
          && w.self.boot in w.booted && w.booted[w.self.boot] == w.self
          && w.self.boot !in w.final
          && (w.useBackups ==> w.self.deployment in w.known))
  }

  /** A boot that was recorded: it happened, and it committed. */
  ghost predicate Recorded(w: World, m: LastBoot) {
    m.boot in w.booted && w.booted[m.boot] == m && m in w.committed
  }

  ghost predicate RecordInv(w: World) {
    w.disk.lastBoot.Some? ==>
      Recorded(w, w.disk.lastBoot.value) && (w.disk.lastBoot.value.boot in w.final || Current(w))
  }

  /** A backup holds what the boot it is named after left. */
  ghost predicate Faithful(w: World, n: string)
    requires n in w.disk.backups && w.disk.backups[n].Folder?
  {
    var e := w.disk.backups[n];
    && e.meta.Some? && Name(e.meta.value) == n
    && Recorded(w, e.meta.value)
    && e.meta.value.boot in w.final && e.image == w.final[e.meta.value.boot]
  }

  ghost predicate StampInv(w: World) {
    var b := w.disk.backups;
    && (forall n :: n in b && n != MARKER && !HasSuffix(n, TMP_SUFFIX) ==> b[n].Folder? && b[n].mtime < w.disk.clock)
    && DistinctStamps(b)
  }

  ghost predicate ListInv(w: World) {
    var b := w.disk.backups;
    forall n :: n in b && Listed(b, n) ==>
      && Before(n) in w.everKnown
      && (b[n].meta.Some? ==> Recorded(w, b[n].meta.value))
      && (Before(n) in w.known ==> Faithful(w, n))
  }

  ghost predicate EntryInv(w: World) {
    StampInv(w) && ListInv(w)
  }

  /** If the last boot has a backup, it is the newest of its deployment. */
  ghost predicate NewestInv(w: World) {
    var b := w.disk.backups;
    w.disk.lastBoot.Some? && w.disk.lastBoot.value.deployment in w.known && Name(w.disk.lastBoot.value) in b ==>
      forall n :: n in b && Listed(b, n) && Before(n) == w.disk.lastBoot.value.deployment ==>
        b[Name(w.disk.lastBoot.value)].Folder? && b[n].mtime <= b[Name(w.disk.lastBoot.value)].mtime
  }

  /** A restore was cut; the marker and a backup to restore are still there. */
  ghost predicate Interrupted(w: World) {
    && w.useBackups && Marked(w.disk) && w.self.deployment != ""
    && (w.phase.Off? || w.phase.Idle? || w.phase.Started?)
    && HasCandidate(w.disk.backups, w.self.deployment)
  }

  ghost predicate Secured(w: World) {
    Covered(w) || Current(w)
  }

  ghost predicate SafeInv(w: World) {
    && (Secured(w) || Intact(w) || Interrupted(w))
    && (w.phase.Restored? ==> Secured(w) || Intact(w))
    && (w.phase.Running? || w.phase.Pruned? || w.phase.Committed? || w.phase.Healthy? ==> Secured(w))
    && (w.kubeletUp ==> !w.phase.Off? && Secured(w))
    && (forall b :: b in w.touched ==> Covered(w) || (w.disk.lastBoot.Some? && w.disk.lastBoot.value.boot == b))
  }

  ghost predicate PhaseInv(w: World) {
    w.phase.Committed? || w.phase.Healthy? ==> w.disk.lastBoot == Some(w.self)
  }

  ghost predicate Inv(w: World) {
    IdsInv(w) && RecordInv(w) && EntryInv(w) && NewestInv(w) && SafeInv(w) && PhaseInv(w)
  }
}
