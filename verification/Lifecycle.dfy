/** internal/lifecycle: Boot, run against the machine and followed step by step by the protocol. */
module Lifecycle {
  import opened FileSystem
  import opened Backup
  import opened BackupLaws
  import opened Recovery
  import opened Protocol
  import Ostree
  import State

  /** What Boot learns from outside: whether this is an ostree host, what rpm-ostree answers when asked for the booted
      deployment and again before pruning, and the kernel's boot id. None stands for a failing call. */
  datatype Surroundings = Surroundings(
    isOSTree: Option<bool>,
    status: Option<seq<Ostree.Deployment>>,
    laterStatus: Option<seq<Ostree.Deployment>>,
    bootID: Option<string>)

  predicate FirstBooted(status: seq<Ostree.Deployment>, i: nat)
    requires i < |status|
  {
    status[i].booted && forall j :: 0 <= j < i ==> !status[j].booted
  }

  /** The answers are those of a machine booted as `w.self`. */
  ghost predicate Describes(env: Surroundings, selfVersion: string, w: World) {
    && w.self.version == selfVersion
    && (env.isOSTree.Some? ==> w.useBackups == env.isOSTree.value)
    && (env.bootID.Some? ==> w.self.boot == env.bootID.value)
    && (!w.useBackups ==> w.self.deployment == "")
    && (w.useBackups && env.status.Some? ==>
          forall i :: 0 <= i < |env.status.value| && FirstBooted(env.status.value, i) ==>
            w.self.deployment == env.status.value[i].id)
  }

  function Last(ws: seq<World>): World
    requires ws != []
  {
    ws[|ws| - 1]
  }

  /** The last label of a run; a run that has none yet is taken to have just started. */
  function Final(ls: seq<Label>): Label {
    if ls == [] then Start else ls[|ls| - 1]
  }

  /** The recorded run has arrived where the machine is. */
  ghost predicate Tracks(ws: seq<World>, ls: seq<Label>, h: Host)
    reads h
  {
    && PossibleRun(ws, ls)
    && h.Valid()
    && Last(ws).disk == h.OnDisk()
    && (!Last(ws).phase.Off? ==> Last(ws).kubeletUp == h.kubeletUp)
  }

  /** The run went on, on the same boot, to the phase that the outcome asks for. */
  ghost predicate Continues(ws: seq<World>, ws': seq<World>, r: Outcome, next: Phase)
    requires ws != []
  {
    && |ws| < |ws'| && ws <= ws'
    && Last(ws').self == Last(ws).self && Last(ws').useBackups == Last(ws).useBackups
    && Last(ws').phase == (match r case Ok => next case Err => Idle case Crash => Off)
  }

  lemma ExtendRun(ws: seq<World>, ls: seq<Label>, l: Label, w: World)
    requires PossibleRun(ws, ls) && Possible(Last(ws), l, w)
    ensures PossibleRun(ws + [w], ls + [l])
  {}

  /** The surroundings answer what Boot asks before it touches anything. */
  predicate Answers(env: Surroundings) {
    && env.isOSTree.Some? && env.bootID.Some?
    && (env.isOSTree.value ==> env.status.Some? && exists d :: d in env.status.value && d.booted)
  }

  /** The restore stage. */
  method RestoreFirst(h: Host, useBackups: bool, currentDeployment: string, ghost ws: seq<World>, ghost ls: seq<Label>)
    returns (r: Outcome, ghost ws': seq<World>, ghost ls': seq<Label>)
    requires Tracks(ws, ls, h) && Last(ws).phase.Started?
    requires Last(ws).useBackups == useBackups && (useBackups ==> Last(ws).self.deployment == currentDeployment)
    modifies h`live, h`staged, h`stagedAt, h`stateDir, h`backups, h`cleared, h`faults
    ensures old(h.faults) + Faults(!r.Ok? && Restorable(old(h.OnDisk()), currentDeployment)) <= h.faults
    ensures Tracks(ws', ls', h) && Adds(ls, ls') && Continues(ws, ws', r, Protocol.Restored)
    ensures useBackups && r.Ok? && h.cleared.Ok? ==> !Marked(h.OnDisk())
    ensures |ls'| == |ls| + 1 && ls'[|ls|].RestoreStage? && ls'[|ls|].r == r
    ensures |ws'| == |ws| + 1 && Last(ws').disk.lastBoot == h.OnDisk().lastBoot
  {
    ghost var name, failed := "", false;
    r := Ok;
    if useBackups {
      r, name, failed := MaybeRestore(h, currentDeployment);
    }
    hide MaybeRestoreOutcome;
    ghost var l := RestoreStage(name, failed, r);
    ghost var w := Ended(Last(ws), h.OnDisk(), r, Protocol.Restored);
    ExtendRun(ws, ls, l, w);
    ws', ls' := ws + [w], ls + [l];
  }

  /** The snapshot stage; hands on the record it was taken for. */
  method SnapshotNext(h: Host, useBackups: bool, currentBoot: string, ghost ws: seq<World>, ghost ls: seq<Label>)
    returns (r: Outcome, prev: Option<LastBoot>, ghost ws': seq<World>, ghost ls': seq<Label>)
    requires Tracks(ws, ls, h) && Last(ws).phase.Restored?
    requires Last(ws).useBackups == useBackups && Last(ws).self.boot == currentBoot
    modifies h`backups, h`clock, h`faults
    ensures old(h.faults) + Faults(!r.Ok?) <= h.faults
    ensures Tracks(ws', ls', h) && Adds(ls, ls') && Continues(ws, ws', r, Running(0))
    ensures r.Ok? ==> prev == h.OnDisk().lastBoot == old(h.OnDisk()).lastBoot
    ensures ls' == ls + [SnapshotStage(r)]
  {
    r, prev := SnapshotPrevious(h, useBackups, currentBoot);
    hide SnapshotOutcome;
    ghost var l := SnapshotStage(r);
    ghost var w := Ended(Last(ws), h.OnDisk(), r, Running(0));
    ExtendRun(ws, ls, l, w);
    ws', ls' := ws + [w], ls + [l];
  }

  /** The events around a boot's gates, and at its end. */
  function UpgradeEvent(prev: string, self: string): string {
    "upgrading " + prev + " -> " + self
  }

  function FailureEvent(upgrading: bool, prev: string, self: string, reason: string): string {
    (if upgrading then "boot failed upgrading " + prev + " -> " + self else "boot failed at " + self) + ": " + reason
  }

  function ClosingEvent(prev: Option<LastBoot>, self: string): string {
    match prev
    case None => "initialised at " + self
    case Some(lb) => if lb.version != self then "upgraded " + lb.version + " -> " + self else "healthy at " + self
  }

  /** Stands for the text of the error that a gate answered. */
  const CAUSE := "gate not passed"

  /** bootFailed: leaves a last event and passes the failure on. */
  method BootFailed(h: Host, upgrading: bool, prev: string, selfVersion: string, reason: string) returns (r: Outcome)
    requires h.Valid()
    modifies h`stateDir, h`faults
    ensures old(h.faults) + Faults(r.Crash?) <= h.faults
    ensures h.Valid() && !r.Ok?
    ensures h.OnDisk() == old(h.OnDisk()).(lastEvent := h.OnDisk().lastEvent)
    ensures EventKept(old(h.OnDisk()), h.OnDisk())
    ensures h.faults == old(h.faults) ==>
              h.OnDisk().lastEvent == Some(FailureEvent(upgrading, prev, selfVersion, reason))
  {
    var cut := NoteEvent(h, if upgrading then "boot failed upgrading " + prev + " -> " + selfVersion + ": " + reason
                            else "boot failed at " + selfVersion + ": " + reason);
    r := if cut then Crash else Err;
  }

  /** The version on record and whether this boot upgrades from it. */
  datatype Versions = Versions(prev: Option<LastBoot>, self: string) {
    predicate Upgrading() {
      prev.Some? && prev.value.version != self
    }

    function From(): string {
      if prev.Some? then prev.value.version else ""
    }

    /** The event that bootFailed writes when a gate was not passed. */
    function Failure(): string {
      FailureEvent(Upgrading(), From(), self, CAUSE)
    }
  }

  /** A gate's own call. */
  method OpenGate(h: Host, gate: Gate) returns (r: Outcome)
    requires gate.Artifacts? || gate.Kubelet? || h.kubeletUp
    modifies h`live, h`kubeletUp, h`answered, h`refused, h`faults
    ensures old(h.faults) + Faults(!r.Ok?) <= h.faults
    ensures h.answered == old(h.answered) + if r.Ok? then [gate] else []
    ensures GateWrites(old(h.OnDisk()), h.kubeletUp, h.OnDisk())
    ensures old(h.kubeletUp) ==> h.kubeletUp
    ensures h.kubeletUp && !old(h.kubeletUp) ==> gate.Kubelet?
    ensures gate.Kubelet? && r.Ok? ==> h.kubeletUp
    ensures h.refused == old(h.refused) + if r.Err? then [gate] else []
  {
    match gate {
      case Artifacts => r := h.WriteArtifacts();
      case Kubelet => r := h.StartKubelet();
      case _ => r := h.Probe(gate);
    }
  }

  lemma EventsBesideGate(d: Disk, up: bool, d1: Disk, d2: Disk, d': Disk)
    requires d1 == d.(lastEvent := d1.lastEvent) && EventKept(d, d1)
    requires GateWrites(d1, up, d2)
    requires d' == d2.(lastEvent := d'.lastEvent) && EventKept(d2, d')
    ensures GateWrites(d, up, d')
  {}

  /** What a gate does, with the events of an upgrade and of a failing boot around it. */
  method TryGate(h: Host, gate: Gate, v: Versions) returns (r: Outcome)
    requires h.Valid()
    requires gate.Artifacts? || gate.Kubelet? || h.kubeletUp
    modifies h`live, h`kubeletUp, h`stateDir, h`answered, h`refused, h`faults
    ensures old(h.faults) + Faults(!r.Ok?) <= h.faults
    ensures h.Valid()
    ensures h.answered == old(h.answered) + if r.Ok? then [gate] else []
    ensures GateWrites(old(h.OnDisk()), h.kubeletUp, h.OnDisk())
    ensures old(h.kubeletUp) ==> h.kubeletUp
    ensures h.kubeletUp && !old(h.kubeletUp) ==> gate.Kubelet?
    ensures gate.Kubelet? && r.Ok? ==> h.kubeletUp
    ensures r.Ok? && h.faults == old(h.faults) ==>
              h.OnDisk().lastEvent == if gate.Artifacts? && v.Upgrading() then Some(UpgradeEvent(v.From(), v.self))
                                      else old(h.OnDisk()).lastEvent
    ensures r.Err? && h.faults == old(h.faults) + 1 ==>
              h.OnDisk().lastEvent == Some(v.Failure())
    ensures r.Ok? ==> h.refused == old(h.refused)
    ensures r.Err? ==> h.refused == old(h.refused) + [gate]
    ensures gate.Artifacts? && v.Upgrading() && r.Crash? && h.faults == old(h.faults) + 1 && h.live != old(h.live) ==>
              h.OnDisk().lastEvent == Some(UpgradeEvent(v.From(), v.self))
  {
    var cut := false;
    if gate.Artifacts? && v.Upgrading() {
      cut := NoteEvent(h, "upgrading " + v.From() + " -> " + v.self);
    }
    if cut {
      return Crash;
    }
    ghost var noted := h.OnDisk();
    r := OpenGate(h, gate);
    ghost var done := h.OnDisk();
    if r.Err? {
      r := BootFailed(h, v.Upgrading(), v.From(), v.self, CAUSE);
    }
    hide GateWrites;
    EventsBesideGate(old(h.OnDisk()), h.kubeletUp, noted, done, h.OnDisk());
  }

  /** One gate of the boot. */
  method PassGate(h: Host, gate: Gate, v: Versions, ghost ws: seq<World>, ghost ls: seq<Label>)
    returns (r: Outcome, ghost ws': seq<World>, ghost ls': seq<Label>)
    requires Tracks(ws, ls, h)
    requires Last(ws).phase.Running? && Last(ws).phase.gates < |GATES| && GATES[Last(ws).phase.gates] == gate
    requires gate.Artifacts? || gate.Kubelet? || h.kubeletUp
    modifies h`live, h`kubeletUp, h`stateDir, h`answered, h`refused, h`faults
    ensures old(h.faults) + Faults(!r.Ok?) <= h.faults
    ensures h.answered == old(h.answered) + if r.Ok? then [gate] else []
    ensures Tracks(ws', ls', h) && Adds(ls, ls') && Continues(ws, ws', r, Running(Last(ws).phase.gates + 1))
    ensures old(h.kubeletUp) ==> h.kubeletUp
    ensures gate.Kubelet? && r.Ok? ==> h.kubeletUp
    ensures r.Err? && h.faults == old(h.faults) + 1 ==>
              h.OnDisk().lastEvent == Some(v.Failure())
    ensures r.Ok? ==> h.refused == old(h.refused)
    ensures r.Err? ==> h.refused == old(h.refused) + [gate]
  {
    r := TryGate(h, gate, v);
    hide GateWrites;
    ghost var from := Last(ws);
    ghost var l := GateStage(r, h.kubeletUp);
    ghost var w := Ended(Gating(from, h.kubeletUp), h.OnDisk(), r, Running(from.phase.gates + 1));
    ExtendRun(ws, ls, l, w);
    ws', ls' := ws + [w], ls + [l];
  }

  /** The addons: their failure is only logged. The cluster is running beside them. */
  method ReconcileAddons(h: Host, ghost ws: seq<World>, ghost ls: seq<Label>)
    returns (r: Outcome, ghost ws': seq<World>, ghost ls': seq<Label>)
    requires Tracks(ws, ls, h) && Last(ws).phase == Running(|GATES|) && h.kubeletUp
    modifies h`live, h`deeds, h`faults
    ensures old(h.faults) + Faults(!r.Ok?) <= h.faults
    ensures h.deeds == old(h.deeds) + [AddonsApplied]
    ensures !r.Err? && Tracks(ws', ls', h) && Adds(ls, ls') && Continues(ws, ws', r, Running(|GATES|))
  {
    r := h.ApplyAddons();
    if r.Err? {
      r := Ok;
    }
    ghost var from := Last(ws);
    ghost var w := from.(disk := from.disk.(live := h.live), touched := from.touched + {from.self.boot});
    ExtendRun(ws, ls, ClusterWrites(h.live), w);
    ws', ls' := ws + [w], ls + [ClusterWrites(h.live)];
    if r.Crash? {
      ExtendRun(ws', ls', PowerLoss, PowerOff(w));
      ws', ls' := ws' + [PowerOff(w)], ls' + [PowerLoss];
    }
  }

  /** Deployments come and go while Boot runs: from where the run has got to, to the list that rpm-ostree gives. */
  lemma DeploymentsChange(ws: seq<World>, ls: seq<Label>, known: set<string>) returns (ws': seq<World>, ls': seq<Label>)
    requires PossibleRun(ws, ls) && !Last(ws).phase.Off?
    ensures PossibleRun(ws', ls') && Adds(ls, ls') && ws <= ws'
    ensures Last(ws') == Last(ws).(known := known, everKnown := Last(ws').everKnown)
  {
    hide Possible;
    ws', ls' := ws, ls;
    while !(known <= Last(ws').known)
      invariant PossibleRun(ws', ls') && Adds(ls, ls') && ws <= ws'
      invariant Last(ws') == Last(ws).(known := Last(ws').known, everKnown := Last(ws').everKnown)
      decreases known - Last(ws').known
    {
      var id :| id in known && id !in Last(ws').known;
      ws', ls' := DeploymentAdded(ws', ls', id);
    }
    while Last(ws').known != known
      invariant PossibleRun(ws', ls') && Adds(ls, ls') && ws <= ws'
      invariant Last(ws') == Last(ws).(known := Last(ws').known, everKnown := Last(ws').everKnown)
      invariant known <= Last(ws').known
      decreases Last(ws').known
    {
      var id :| id in Last(ws').known && id !in known;
      ws', ls' := DeploymentCollected(ws', ls', id);
    }
  }

  lemma DeploymentAdded(ws: seq<World>, ls: seq<Label>, id: string) returns (ws': seq<World>, ls': seq<Label>)
    requires PossibleRun(ws, ls) && !Last(ws).phase.Off?
    ensures PossibleRun(ws', ls') && Adds(ls, ls') && |ws| < |ws'| && ws <= ws'
    ensures Last(ws') == Last(ws).(known := Last(ws).known + {id}, everKnown := Last(ws).everKnown + {id})
  {
    var w := Last(ws).(known := Last(ws).known + {id}, everKnown := Last(ws).everKnown + {id});
    ExtendRun(ws, ls, AddDeployment(id), w);
    ws', ls' := ws + [w], ls + [AddDeployment(id)];
  }

  lemma DeploymentCollected(ws: seq<World>, ls: seq<Label>, id: string) returns (ws': seq<World>, ls': seq<Label>)
    requires PossibleRun(ws, ls) && !Last(ws).phase.Off?
    ensures PossibleRun(ws', ls') && Adds(ls, ls') && |ws| < |ws'| && ws <= ws'
    ensures Last(ws') == Last(ws).(known := Last(ws).known - {id})
  {
    var w := Last(ws).(known := Last(ws).known - {id});
    ExtendRun(ws, ls, CollectDeployment(id), w);
    ws', ls' := ws + [w], ls + [CollectDeployment(id)];
  }

  /** Listing the deployments and pruning by the list. */
  method PruneKnown(h: Host, useBackups: bool, status: Option<seq<Ostree.Deployment>>, ghost known: set<string>)
    returns (r: Outcome, ghost head: map<string, string>, ghost torn: Option<string>)
    requires status.Some? ==> Elements(Ostree.Ids(status.value)) == known
    modifies h`backups, h`clock, h`pruned, h`faults
    ensures old(h.faults) + Faults(r.Crash? || (!r.Ok? && status.Some?)) <= h.faults
    ensures if useBackups then PruneOutcome(old(h.OnDisk()), known, head, torn, h.OnDisk(), r)
            else torn.None? && r.Ok? && h.OnDisk() == old(h.OnDisk())
    ensures useBackups && status.Some? && h.pruned.Ok? ==> Tidy(h.backups, known)
  {
    r, head, torn := Ok, map[], None;
    if useBackups {
      var ids;
      r, ids := Ostree.AllDeploymentIDs(true, status);
      if r.Ok? {
        r, head, torn := Prune(h, ids);
        if r.Ok? {
          PruneTidies(old(h.backups), known, head);
        }
      } else {
        RemovalThins(h.backups, {}, h.clock);
      }
    }
  }

  /** The prune stage: skipped or failed, the boot goes on. */
  method PruneBackups(h: Host, useBackups: bool, status: Option<seq<Ostree.Deployment>>, ghost ws: seq<World>,
      ghost ls: seq<Label>)
    returns (r: Outcome, ghost ws': seq<World>, ghost ls': seq<Label>)
    requires Tracks(ws, ls, h) && Last(ws).phase == Running(|GATES|)
    requires Last(ws).useBackups == useBackups
    modifies h`backups, h`clock, h`pruned, h`faults
    ensures old(h.faults) + Faults(!r.Ok?) <= h.faults
    ensures !r.Err? && Tracks(ws', ls', h) && Adds(ls, ls') && Continues(ws, ws', r, Pruned)
    ensures useBackups && status.Some? && h.pruned.Ok? ==> Tidy(h.backups, Elements(Ostree.Ids(status.value)))
  {
    ghost var known := if status.Some? then Elements(Ostree.Ids(status.value)) else Last(ws).known;
    ws', ls' := DeploymentsChange(ws, ls, known);
    ghost var from := Last(ws');
    var pruned;
    ghost var head, torn;
    pruned, head, torn := PruneKnown(h, useBackups, status, known);
    r := if pruned.Err? then Ok else pruned;
    hide PruneOutcome, Tidy;
    ghost var l := PruneStage(head, torn, pruned);
    ghost var w := Ended(from, h.OnDisk(), r, Pruned);
    ExtendRun(ws', ls', l, w);
    ws', ls' := ws' + [w], ls' + [l];
  }

  /** The commit: last-boot becomes this boot. */
  method CommitBoot(h: Host, self: LastBoot, ghost ws: seq<World>, ghost ls: seq<Label>)
    returns (r: Outcome, ghost ws': seq<World>, ghost ls': seq<Label>)
    requires Tracks(ws, ls, h) && Last(ws).phase.Pruned? && Last(ws).self == self
    modifies h`stateDir, h`faults
    ensures old(h.faults) + Faults(!r.Ok?) <= h.faults
    ensures Tracks(ws', ls', h) && Adds(ls, ls') && Continues(ws, ws', r, Committed)
    ensures r.Ok? ==> h.OnDisk().lastBoot == Some(self)
    ensures Final(ls').CommitStage?
  {
    r := State.WriteLastBoot(h, self);
    ghost var w := Ended(Committing(Last(ws), h.OnDisk()), h.OnDisk(), r, Committed);
    ExtendRun(ws, ls, CommitStage(r), w);
    ws', ls' := ws + [w], ls + [CommitStage(r)];
  }

  /** The closing event and READY=1. */
  method CloseBoot(h: Host, v: Versions) returns (r: Outcome)
    requires h.Valid()
    modifies h`stateDir, h`deeds, h`ready, h`faults
    ensures old(h.faults) + Faults(!r.Ok?) <= h.faults
    ensures !r.Err? && h.Valid()
    ensures h.OnDisk() == old(h.OnDisk()).(lastEvent := h.OnDisk().lastEvent)
    ensures EventKept(old(h.OnDisk()), h.OnDisk())
    ensures h.deeds == old(h.deeds) + if r.Ok? then [ReadySent] else []
    ensures h.ready ==> old(h.ready) || r.Ok?
    ensures r.Ok? && h.faults == old(h.faults) ==> h.ready
    ensures r.Ok? && h.faults == old(h.faults) ==> h.OnDisk().lastEvent == Some(ClosingEvent(v.prev, v.self))
  {
    var cut := NoteEvent(h, if v.Upgrading() then "upgraded " + v.From() + " -> " + v.self
                            else if v.prev.None? then "initialised at " + v.self
                            else "healthy at " + v.self);
    r := if cut then Crash else Ok;
    if r.Ok? {
      h.NotifyReady();
    }
  }

  /** The last stage of a healthy boot. */
  method AnnounceBoot(h: Host, v: Versions, ghost ws: seq<World>, ghost ls: seq<Label>)
    returns (r: Outcome, ghost ws': seq<World>, ghost ls': seq<Label>)
    requires Tracks(ws, ls, h) && Last(ws).phase.Committed?
    modifies h`stateDir, h`deeds, h`ready, h`faults
    ensures old(h.faults) + Faults(!r.Ok?) <= h.faults
    ensures !r.Err? && Tracks(ws', ls', h) && Adds(ls, ls') && Continues(ws, ws', r, Healthy)
    ensures h.deeds == old(h.deeds) + if r.Ok? then [ReadySent] else []
    ensures h.ready ==> old(h.ready) || r.Ok?
    ensures r.Ok? && h.faults == old(h.faults) ==> h.ready
    ensures h.OnDisk().lastBoot == old(h.OnDisk()).lastBoot
    ensures r.Ok? && h.faults == old(h.faults) ==> h.OnDisk().lastEvent == Some(ClosingEvent(v.prev, v.self))
  {
    r := CloseBoot(h, v);
    hide ClosingEvent;
    ghost var w := Ended(Last(ws), h.OnDisk(), r, Healthy);
    ExtendRun(ws, ls, AnnounceStage(r), w);
    ws', ls' := ws + [w], ls + [AnnounceStage(r)];
  }

  /** Some of the gates have answered nil, in order, and the next one an error. */
  ghost predicate StoppedAt(gates: seq<Gate>, answered: seq<Gate>, answered': seq<Gate>, refused: seq<Gate>,
      refused': seq<Gate>)
  {
    var i := |answered'| - |answered|;
    0 <= i < |gates| && answered' == answered + gates[..i] && refused' == refused + [gates[i]]
  }

  /** The gates that bring the cluster up. */
  method RaiseCluster(h: Host, v: Versions, ghost ws: seq<World>, ghost ls: seq<Label>)
    returns (r: Outcome, ghost ws': seq<World>, ghost ls': seq<Label>)
    requires Tracks(ws, ls, h) && Last(ws).phase == Running(0)
    modifies h`live, h`kubeletUp, h`stateDir, h`answered, h`refused, h`faults
    ensures old(h.faults) + Faults(!r.Ok?) <= h.faults
    ensures Tracks(ws', ls', h) && Adds(ls, ls') && Continues(ws, ws', r, Running(2))
    ensures r.Ok? ==> h.kubeletUp && h.answered == old(h.answered) + [Artifacts, Kubelet]
    ensures r.Err? && h.faults == old(h.faults) + 1 ==> h.OnDisk().lastEvent == Some(v.Failure())
    ensures r.Ok? ==> h.refused == old(h.refused)
    ensures r.Err? ==> StoppedAt([Artifacts, Kubelet], old(h.answered), h.answered, old(h.refused), h.refused)
  {
    hide Tracks;
    r, ws', ls' := PassGate(h, Artifacts, v, ws, ls);
    if r.Ok? {
      r, ws', ls' := PassGate(h, Kubelet, v, ws', ls');
    }
  }

  lemma StopsInFirst(first: seq<Gate>, rest: seq<Gate>, answered: seq<Gate>, answered': seq<Gate>, refused: seq<Gate>,
                     refused': seq<Gate>)
    requires StoppedAt(first, answered, answered', refused, refused')
    ensures StoppedAt(first + rest, answered, answered', refused, refused')
  {}

  lemma StopsInRest(first: seq<Gate>, rest: seq<Gate>, answered: seq<Gate>, answered': seq<Gate>, refused: seq<Gate>,
                    refused': seq<Gate>)
    requires StoppedAt(rest, answered + first, answered', refused, refused')
    ensures StoppedAt(first + rest, answered, answered', refused, refused')
  {
    var i := |answered'| - |answered + first|;
    assert (first + rest)[..|first| + i] == first + rest[..i];
  }

  /** The API server answers, and takes the administrator. */
  method AwaitServer(h: Host, v: Versions, ghost ws: seq<World>, ghost ls: seq<Label>)
    returns (r: Outcome, ghost ws': seq<World>, ghost ls': seq<Label>)
    requires Tracks(ws, ls, h) && Last(ws).phase == Running(2) && h.kubeletUp
    modifies h`live, h`kubeletUp, h`stateDir, h`answered, h`refused, h`faults
    ensures old(h.faults) + Faults(!r.Ok?) <= h.faults
    ensures Tracks(ws', ls', h) && Adds(ls, ls') && Continues(ws, ws', r, Running(4))
    ensures h.kubeletUp && (r.Ok? ==> h.answered == old(h.answered) + [Readyz, AdminRbac])
    ensures r.Err? && h.faults == old(h.faults) + 1 ==> h.OnDisk().lastEvent == Some(v.Failure())
    ensures r.Ok? ==> h.refused == old(h.refused)
    ensures r.Err? ==> StoppedAt([Readyz, AdminRbac], old(h.answered), h.answered, old(h.refused), h.refused)
  {
    hide Tracks;
    r, ws', ls' := PassGate(h, Readyz, v, ws, ls);
    if r.Ok? {
      r, ws', ls' := PassGate(h, AdminRbac, v, ws', ls');
    }
  }

  /** The control plane is ready, and the node marked. */
  method AwaitNode(h: Host, v: Versions, ghost ws: seq<World>, ghost ls: seq<Label>)
    returns (r: Outcome, ghost ws': seq<World>, ghost ls': seq<Label>)
    requires Tracks(ws, ls, h) && Last(ws).phase == Running(4) && h.kubeletUp
    modifies h`live, h`kubeletUp, h`stateDir, h`answered, h`refused, h`faults
    ensures old(h.faults) + Faults(!r.Ok?) <= h.faults
    ensures Tracks(ws', ls', h) && Adds(ls, ls') && Continues(ws, ws', r, Running(|GATES|))
    ensures h.kubeletUp && (r.Ok? ==> h.answered == old(h.answered) + [ControlPlane, MarkNode])
    ensures r.Err? && h.faults == old(h.faults) + 1 ==> h.OnDisk().lastEvent == Some(v.Failure())
    ensures r.Ok? ==> h.refused == old(h.refused)
    ensures r.Err? ==> StoppedAt([ControlPlane, MarkNode], old(h.answered), h.answered, old(h.refused), h.refused)
  {
    hide Tracks;
    r, ws', ls' := PassGate(h, ControlPlane, v, ws, ls);
    if r.Ok? {
      r, ws', ls' := PassGate(h, MarkNode, v, ws', ls');
    }
  }

  const AWAITED: seq<Gate> := [Readyz, AdminRbac, ControlPlane, MarkNode]

  /** The gates that wait for the cluster. */
  method AwaitCluster(h: Host, v: Versions, ghost ws: seq<World>, ghost ls: seq<Label>)
    returns (r: Outcome, ghost ws': seq<World>, ghost ls': seq<Label>)
    requires Tracks(ws, ls, h) && Last(ws).phase == Running(2) && h.kubeletUp
    modifies h`live, h`kubeletUp, h`stateDir, h`answered, h`refused, h`faults
    ensures old(h.faults) + Faults(!r.Ok?) <= h.faults
    ensures Tracks(ws', ls', h) && Adds(ls, ls') && Continues(ws, ws', r, Running(|GATES|))
    ensures h.kubeletUp && (r.Ok? ==> h.answered == old(h.answered) + AWAITED)
    ensures r.Err? && h.faults == old(h.faults) + 1 ==> h.OnDisk().lastEvent == Some(v.Failure())
    ensures r.Ok? ==> h.refused == old(h.refused)
    ensures r.Err? ==> StoppedAt(AWAITED, old(h.answered), h.answered, old(h.refused), h.refused)
  {
    hide Tracks, StoppedAt;
    ghost var first, rest := [Readyz, AdminRbac], [ControlPlane, MarkNode];
    assert first + rest == AWAITED;
    r, ws', ls' := AwaitServer(h, v, ws, ls);
    if r.Err? {
      StopsInFirst(first, rest, old(h.answered), h.answered, old(h.refused), h.refused);
    }
    if r.Ok? {
      r, ws', ls' := AwaitNode(h, v, ws', ls');
      if r.Err? {
        StopsInRest(first, rest, old(h.answered), h.answered, old(h.refused), h.refused);
      }
    }
  }

  /** The gates of a boot, one after the other. */
  method PassGates(h: Host, v: Versions, ghost ws: seq<World>, ghost ls: seq<Label>)
    returns (r: Outcome, ghost ws': seq<World>, ghost ls': seq<Label>)
    requires Tracks(ws, ls, h) && Last(ws).phase == Running(0)
    modifies h`live, h`kubeletUp, h`stateDir, h`answered, h`refused, h`faults
    ensures old(h.faults) + Faults(!r.Ok?) <= h.faults
    ensures Tracks(ws', ls', h) && Adds(ls, ls') && Continues(ws, ws', r, Running(|GATES|))
    ensures r.Ok? ==> h.kubeletUp && h.answered == old(h.answered) + GATES
    ensures r.Err? && h.faults == old(h.faults) + 1 ==> h.OnDisk().lastEvent == Some(v.Failure())
    ensures r.Ok? ==> h.refused == old(h.refused)
    ensures r.Err? ==> StoppedAt(GATES, old(h.answered), h.answered, old(h.refused), h.refused)
  {
    hide Tracks, StoppedAt;
    ghost var first, rest := [Artifacts, Kubelet], AWAITED;
    assert first + rest == GATES;
    r, ws', ls' := RaiseCluster(h, v, ws, ls);
    if r.Err? {
      StopsInFirst(first, rest, old(h.answered), h.answered, old(h.refused), h.refused);
    }
    if r.Ok? {
      r, ws', ls' := AwaitCluster(h, v, ws', ls');
      if r.Err? {
        StopsInRest(first, rest, old(h.answered), h.answered, old(h.refused), h.refused);
      }
    }
  }

  /** From the passed gates to READY=1. */
  method FinishBoot(h: Host, self: LastBoot, useBackups: bool, laterStatus: Option<seq<Ostree.Deployment>>, v: Versions,
                    ghost ws: seq<World>, ghost ls: seq<Label>)
    returns (r: Outcome, ghost ws': seq<World>, ghost ls': seq<Label>)
    requires Tracks(ws, ls, h) && Last(ws).phase == Running(|GATES|) && h.kubeletUp
    requires Last(ws).self == self && Last(ws).useBackups == useBackups
    modifies h`live, h`backups, h`clock, h`stateDir, h`deeds, h`ready, h`pruned, h`faults
    ensures old(h.faults) + Faults(!r.Ok?) <= h.faults
    ensures Tracks(ws', ls', h) && Adds(ls, ls') && Continues(ws, ws', r, Healthy)
    ensures r.Ok? ==> h.OnDisk().lastBoot == Some(self)
    ensures r.Ok? && useBackups && laterStatus.Some? && h.pruned.Ok? ==>
              Tidy(h.backups, Elements(Ostree.Ids(laterStatus.value)))
    ensures r.Err? ==> Final(ls').CommitStage?
    ensures h.deeds == old(h.deeds) + if r.Ok? then [AddonsApplied, ReadySent] else [AddonsApplied]
    ensures h.ready ==> old(h.ready) || r.Ok?
    ensures r.Ok? && h.faults == old(h.faults) ==> h.ready
    ensures r.Ok? && h.faults == old(h.faults) ==> h.OnDisk().lastEvent == Some(ClosingEvent(v.prev, v.self))
  {
    hide Tracks, Host.OnDisk, Tidy, ClosingEvent;
    r, ws', ls' := ReconcileAddons(h, ws, ls);
    if r.Ok? {
      r, ws', ls' := PruneBackups(h, useBackups, laterStatus, ws', ls');
    }
    if r.Ok? {
      r, ws', ls' := CommitBoot(h, self, ws', ls');
    }
    if r.Ok? {
      r, ws', ls' := AnnounceBoot(h, v, ws', ls');
    }
  }

  /** lifecycle.Boot. Every way it can go, power cuts included, is a run of the protocol; it returns nil exactly when
      that run ends Healthy. Then every gate has answered, in order, and last-boot is this boot; READY is sent by no
      other boot. */
  method Boot(h: Host, env: Surroundings, selfVersion: string, ghost w: World)
    returns (r: Outcome, ghost ws: seq<World>, ghost ls: seq<Label>)
    requires h.Valid()
    requires w.phase.Started? && w.disk == h.OnDisk() && w.kubeletUp == h.kubeletUp
    requires Describes(env, selfVersion, w)
    modifies h
    ensures old(h.faults) + Faults(!r.Ok? && Answers(env) && Restorable(w.disk, w.self.deployment)) <= h.faults
    ensures Tracks(ws, ls, h) && Adds([], ls) && ws[0] == w && Continues([w], ws, r, Healthy)
    ensures r.Ok? ==> h.OnDisk().lastBoot == Some(w.self) && h.answered == old(h.answered) + GATES
    ensures r.Ok? && w.useBackups && env.laterStatus.Some? && h.pruned.Ok? ==>
              Tidy(h.backups, Elements(Ostree.Ids(env.laterStatus.value)))
    ensures r.Ok? ==> h.deeds == old(h.deeds) + [AddonsApplied, ReadySent]
    ensures !r.Ok? ==> h.deeds in {old(h.deeds), old(h.deeds) + [AddonsApplied]}
    ensures h.ready ==> old(h.ready) || r.Ok?
    ensures r.Ok? && h.faults == old(h.faults) ==> h.ready
    ensures r.Ok? && h.faults == old(h.faults) ==>
              h.OnDisk().lastEvent == Some(ClosingEvent(ws[1].disk.lastBoot, selfVersion))
    ensures r.Err? && h.faults == old(h.faults) + 1 && Final(ls).GateStage? ==>
              h.OnDisk().lastEvent == Some(Versions(ws[1].disk.lastBoot, selfVersion).Failure())
    ensures !Answers(env) ==> r.Err? && ls == [Abort] && h.OnDisk() == old(h.OnDisk())
    ensures !Answers(env) ==> h.answered == old(h.answered) && h.refused == old(h.refused)
    ensures r.Ok? ==> h.refused == old(h.refused)
    ensures r.Err? && Final(ls).GateStage? ==> StoppedAt(GATES, old(h.answered), h.answered, old(h.refused), h.refused)
  {
    ws, ls := [w], [];
    var booted := Err;
    var currentDeployment := "";
    if env.isOSTree.Some? {
      booted, currentDeployment := Ostree.BootedDeploymentID(env.isOSTree.value, env.status);
    }
    if booted.Err? || env.bootID.None? {
      ExtendRun(ws, ls, Abort, w.(phase := Idle));
      return Err, ws + [w.(phase := Idle)], ls + [Abort];
    }
    var useBackups := env.isOSTree.value;
    var self := LastBoot(selfVersion, currentDeployment, env.bootID.value);
    assert self == w.self;
    hide Tracks, Describes, Host.OnDisk, Tidy;
    r, ws, ls := BootUp(h, self, useBackups, env.laterStatus, ws, ls);
  }

  /** Boot from the restore on. */
  method BootUp(h: Host, self: LastBoot, useBackups: bool, laterStatus: Option<seq<Ostree.Deployment>>,
                ghost ws: seq<World>, ghost ls: seq<Label>)
    returns (r: Outcome, ghost ws': seq<World>, ghost ls': seq<Label>)
    requires Tracks(ws, ls, h) && Last(ws).phase.Started?
    requires Last(ws).self == self && Last(ws).useBackups == useBackups
    modifies h
    ensures old(h.faults) + Faults(!r.Ok? && Restorable(old(h.OnDisk()), self.deployment)) <= h.faults
    ensures Tracks(ws', ls', h) && Adds(ls, ls') && Continues(ws, ws', r, Healthy)
    ensures r.Ok? ==> h.OnDisk().lastBoot == Some(self) && h.answered == old(h.answered) + GATES
    ensures r.Ok? && useBackups && laterStatus.Some? && h.pruned.Ok? ==>
              Tidy(h.backups, Elements(Ostree.Ids(laterStatus.value)))
    ensures r.Ok? ==> h.deeds == old(h.deeds) + [AddonsApplied, ReadySent]
    ensures !r.Ok? ==> h.deeds in {old(h.deeds), old(h.deeds) + [AddonsApplied]}
    ensures h.ready ==> old(h.ready) || r.Ok?
    ensures r.Ok? && h.faults == old(h.faults) ==> h.ready
    ensures r.Ok? && h.faults == old(h.faults) ==>
              h.OnDisk().lastEvent == Some(ClosingEvent(ws'[|ws|].disk.lastBoot, self.version))
    ensures r.Err? && h.faults == old(h.faults) + 1 && Final(ls').GateStage? ==>
              h.OnDisk().lastEvent == Some(Versions(ws'[|ws|].disk.lastBoot, self.version).Failure())
    ensures r.Ok? ==> h.refused == old(h.refused)
    ensures r.Err? && Final(ls').GateStage? ==> StoppedAt(GATES, old(h.answered), h.answered, old(h.refused), h.refused)
  {
    hide Tracks, Host.OnDisk, Tidy, ClosingEvent, FailureEvent;
    var prev;
    r, prev, ws', ls' := Recover(h, self, useBackups, ws, ls);
    if r.Ok? {
      ghost var recovered := ws';
      r, ws', ls' := BringUp(h, self, useBackups, laterStatus, Versions(prev, self.version), ws', ls');
      assert ws'[|ws|] == recovered[|ws|];
    }
  }

  /** The restore and the snapshot. */
  method Recover(h: Host, self: LastBoot, useBackups: bool, ghost ws: seq<World>, ghost ls: seq<Label>)
    returns (r: Outcome, prev: Option<LastBoot>, ghost ws': seq<World>, ghost ls': seq<Label>)
    requires Tracks(ws, ls, h) && Last(ws).phase.Started?
    requires Last(ws).self == self && Last(ws).useBackups == useBackups
    modifies h`live, h`staged, h`stagedAt, h`stateDir, h`backups, h`clock, h`cleared, h`faults
    ensures old(h.faults) + Faults(!r.Ok? && Restorable(old(h.OnDisk()), self.deployment)) <= h.faults
    ensures Tracks(ws', ls', h) && Adds(ls, ls') && Continues(ws, ws', r, Running(0))
    ensures !Final(ls').GateStage?
    ensures r.Ok? ==> prev == ws'[|ws|].disk.lastBoot
  {
    hide Tracks, Host.OnDisk;
    prev := None;
    r, ws', ls' := RestoreFirst(h, useBackups, self.deployment, ws, ls);
    if r.Ok? {
      ghost var restored := ws';
      r, prev, ws', ls' := SnapshotNext(h, useBackups, self.boot, ws', ls');
      assert ws'[|ws|] == restored[|ws|];
    }
  }

  /** The gates, and what follows them. */
  method BringUp(h: Host, self: LastBoot, useBackups: bool, laterStatus: Option<seq<Ostree.Deployment>>, v: Versions,
                 ghost ws: seq<World>, ghost ls: seq<Label>)
    returns (r: Outcome, ghost ws': seq<World>, ghost ls': seq<Label>)
    requires Tracks(ws, ls, h) && Last(ws).phase == Running(0)
    requires Last(ws).self == self && Last(ws).useBackups == useBackups
    modifies h`live, h`kubeletUp, h`backups, h`clock, h`stateDir, h`answered, h`refused, h`deeds, h`ready, h`pruned,
             h`faults
    ensures old(h.faults) + Faults(!r.Ok?) <= h.faults
    ensures Tracks(ws', ls', h) && Adds(ls, ls') && Continues(ws, ws', r, Healthy)
    ensures r.Ok? ==> h.OnDisk().lastBoot == Some(self) && h.answered == old(h.answered) + GATES
    ensures r.Ok? && useBackups && laterStatus.Some? && h.pruned.Ok? ==>
              Tidy(h.backups, Elements(Ostree.Ids(laterStatus.value)))
    ensures r.Ok? ==> h.deeds == old(h.deeds) + [AddonsApplied, ReadySent]
    ensures !r.Ok? ==> h.deeds in {old(h.deeds), old(h.deeds) + [AddonsApplied]}
    ensures h.ready ==> old(h.ready) || r.Ok?
    ensures r.Ok? && h.faults == old(h.faults) ==> h.ready
    ensures r.Ok? && h.faults == old(h.faults) ==> h.OnDisk().lastEvent == Some(ClosingEvent(v.prev, v.self))
    ensures r.Err? && h.faults == old(h.faults) + 1 && Final(ls').GateStage? ==>
              h.OnDisk().lastEvent == Some(v.Failure())
    ensures r.Ok? ==> h.refused == old(h.refused)
    ensures r.Err? && Final(ls').GateStage? ==> StoppedAt(GATES, old(h.answered), h.answered, old(h.refused), h.refused)
  {
    hide Tracks, Host.OnDisk, Tidy, ClosingEvent, FailureEvent;
    r, ws', ls' := PassGates(h, v, ws, ls);
    if r.Ok? {
      r, ws', ls' := FinishBoot(h, self, useBackups, laterStatus, v, ws', ls');
    }
  }
}
