/** The node's file system as nanok8s sees it, and the operating-system calls nanok8s makes on it.
    Every call answers `Ok`, answers `Err`, or is cut (`Crash`) because power fails or nanok8s is killed; the calls that
    work file by file may leave anything behind in the place they were working on. */
module FileSystem {

  datatype Option<+T> = None | Some(value: T)

  /** How one call, or a whole method, ended. After `Crash` nothing runs, deferred calls included. */
  datatype Outcome = Ok | Err | Crash

  /** state.LastBoot */
  datatype LastBoot = LastBoot(version: string, deployment: string, boot: string)

  /** The parts of the live data: two directory trees and the files under /var/lib/kubelet. */
  datatype Member = Etcd | Kubernetes | KubeletFile(name: string) {
    predicate IsTree() {
      Etcd? || Kubernetes?
    }
  }

  /** Relative path to bytes; a plain file is a content with the single path "". */
  type Content = map<string, string>

  /** Members that are absent from disk are absent from the map. */
  type Image = map<Member, Content>

  /** An entry of /var/lib/nanok8s/backups. `meta` is None while meta.json is missing or torn. */
  datatype Entry = Folder(image: Image, meta: Option<LastBoot>, mtime: nat) | Plain

  /** A file of /var/lib/nanok8s/state. */
  datatype Doc = BootDoc(lastBoot: LastBoot) | EventDoc(message: string) | Torn

  const LAST_BOOT := "last-boot.json"
  const LAST_EVENT := "last-event"
  const MARKER := "restore"
  const KUBELET_STATE_FILES: seq<string> := ["config.yaml", "instance-config.yaml", "kubeadm-flags.env"]

  /** The five members a backup covers. */
  predicate Managed(m: Member) {
    m.IsTree() || m.name in KUBELET_STATE_FILES
  }

  /** What a backup of this live data has to hold. */
  function Snapshot(live: Image): Image {
    map m | m in live && Managed(m) :: live[m]
  }

  function Unmanaged(live: Image): Image {
    map m | m in live && !Managed(m) :: live[m]
  }

  predicate SameAt(image: Image, image': Image, m: Member) {
    (m in image <==> m in image') && (m in image ==> image'[m] == image[m])
  }

  /** Some of a member, or all of it, has gone; nothing was added. */
  ghost predicate ShrunkAt(image: Image, image': Image, m: Member) {
    m in image && (m in image' ==> image'[m].Items <= image[m].Items)
  }

  /** What survives a power loss, with the state directory reduced to the two files that are read. */
  datatype Disk = Disk(
    live: Image,
    staged: Image,
    backups: map<string, Entry>,
    lastBoot: Option<LastBoot>,
    lastEvent: Option<string>,
    clock: nat)

  /** What an interrupted removal of a backup may leave: less of the same, stamped anew if a child of its own went. */
  ghost predicate Remnant(e: Entry, e': Entry, now: nat) {
    || e' == e
    || (&& e.Folder? && e'.Folder?
        && e'.meta in {e.meta, None}
        && e'.mtime in {e.mtime, now}
        && e'.image.Keys <= e.image.Keys
        && forall m :: m in e'.image ==> e'.image[m].Items <= e.image[m].Items)
  }

  /** The gates of a boot: Ensure, the kubelet start, /readyz, RBAC, control plane, node marking. */
  datatype Gate = Artifacts | Kubelet | Readyz | AdminRbac | ControlPlane | MarkNode

  /** The four subtrees that reset removes. */
  datatype Subtree = KubernetesDir | EtcdDataDir | KubeletDir | NanoK8sVarDir

  /** What nanok8s asks of others, or removes for good; a deed counts as done whatever it was answered. */
  datatype Deed = AddonsApplied | ReadySent | ClusterStopped | Detached(path: string) | Removed(subtree: Subtree)

  /** One fault, or none. */
  function Faults(one: bool): nat {
    if one then 1 else 0
  }

  class Host {
    var live: Image
    /** The `.restoring` siblings of the live members. */
    var staged: Image
    var backups: map<string, Entry>
    var stateDir: map<string, Doc>
    /** Time stamps handed to directories; no two snapshots get the same one. */
    var clock: nat
    /** Whether kubelet was started in this kernel boot, and not stopped since with all its containers. */
    var kubeletUp: bool
    /** The gates that have answered nil, in the order they did. */
    ghost var answered: seq<Gate>
    /** The gates that have answered an error. */
    ghost var refused: seq<Gate>
    /** The deeds, in their order. */
    ghost var deeds: seq<Deed>
    /** Whether READY=1 has reached systemd. */
    ghost var ready: bool
    /** The `.restoring` siblings as they were when a live member was last removed. */
    ghost var stagedAt: map<Member, Image>
    /** The last answers of the two things whose failure nanok8s only logs: dropping the marker, and pruning. */
    ghost var cleared: Outcome
    ghost var pruned: Outcome
    /** How many calls have been cut, or have failed although nothing on disk was in their way. */
    ghost var faults: nat

    /** The two state files hold documents of their own kind, never a torn one. */
    ghost predicate Valid()
      reads this`stateDir
    {
      && (LAST_BOOT in stateDir ==> stateDir[LAST_BOOT].BootDoc?)
      && (LAST_EVENT in stateDir ==> stateDir[LAST_EVENT].EventDoc?)
    }

    function OnDisk(): Disk
      reads this`live, this`staged, this`backups, this`stateDir, this`clock
    {
      Disk(live, staged, backups,
           if LAST_BOOT in stateDir && stateDir[LAST_BOOT].BootDoc? then Some(stateDir[LAST_BOOT].lastBoot) else None,
           if LAST_EVENT in stateDir && stateDir[LAST_EVENT].EventDoc? then Some(stateDir[LAST_EVENT].message)
           else None,
           clock)
    }

    /** An answer of the operating system to a call that changes nothing. */
    method Answer() returns (r: Outcome)
      modifies this`faults
      ensures faults == old(faults) + Faults(!r.Ok?)
    {
      r := *;
      faults := faults + Faults(!r.Ok?);
    }

    // ---- live data ----

    /** os.RemoveAll on a live member; cut or failing, it has removed some of it. */
    method RemoveLive(m: Member) returns (r: Outcome)
      modifies this`live, this`stagedAt, this`faults
      ensures faults == old(faults) + Faults(!r.Ok?)
      ensures live - {m} == old(live) - {m}
      ensures r.Ok? ==> live == old(live) - {m}
      ensures live == old(live) || ShrunkAt(old(live), live, m)
      ensures stagedAt == old(stagedAt)[m := staged]
    {
      r := *;
      stagedAt := stagedAt[m := staged];
      var left: Content := *;
      var all: bool := *;
      if r.Ok? || all {
        live := live - {m};
      } else if m in live && left.Items <= live[m].Items {
        live := live[m := left];
      }
      faults := faults + Faults(!r.Ok?);
    }

    /** os.Remove on one file of the kubelet directory: done or not done. */
    method UnlinkLive(m: Member) returns (r: Outcome)
      modifies this`live, this`faults
      ensures faults == old(faults) + Faults(!r.Ok?)
      ensures r.Ok? ==> live == old(live) - {m}
      ensures r.Err? ==> live == old(live)
      ensures r.Crash? ==> live == old(live) || live == old(live) - {m}
    {
      r := *;
      var done: bool := *;
      if r.Ok? || (r.Crash? && done) {
        live := live - {m};
      }
      faults := faults + Faults(!r.Ok?);
    }

    /** os.RemoveAll on the `.restoring` sibling of a member; cut or failing, it has removed some of it. */
    method RemoveStaged(m: Member) returns (r: Outcome)
      modifies this`staged, this`faults
      ensures faults == old(faults) + Faults(!r.Ok?)
      ensures staged - {m} == old(staged) - {m}
      ensures r.Ok? ==> staged == old(staged) - {m}
      ensures staged == old(staged) || ShrunkAt(old(staged), staged, m)
    {
      r := *;
      var left: Content := *;
      var all: bool := *;
      if r.Ok? || all {
        staged := staged - {m};
      } else if m in staged && left.Items <= staged[m].Items {
        staged := staged[m := left];
      }
      faults := faults + Faults(!r.Ok?);
    }

    /** `cp` of `content` onto the `.restoring` sibling of a member; into a tree that is still there. */
    method CopyToStaged(content: Content, m: Member) returns (r: Outcome)
      modifies this`staged, this`faults
      ensures faults == old(faults) + Faults(!r.Ok?)
      ensures staged - {m} == old(staged) - {m}
      ensures r.Ok? && !(m.IsTree() && m in old(staged)) ==> staged == old(staged)[m := content]
    {
      r := *;
      if r.Ok? && !(m.IsTree() && m in staged) {
        staged := staged[m := content];
      } else {
        var anything: Image := *;
        staged := staged - {m} + (map k | k in anything && k == m :: anything[k]);
      }
      faults := faults + Faults(!r.Ok?);
    }

    /** os.Rename of the `.restoring` sibling onto the member. A directory that is still there is in the way. */
    method RenameStaged(m: Member) returns (r: Outcome)
      modifies this`live, this`staged, this`faults
      ensures faults ==
              old(faults) + Faults(r.Crash? || (r.Err? && m in old(staged) && !(m.IsTree() && m in old(live))))
      ensures r.Err? ==> live == old(live) && staged == old(staged)
      ensures r.Ok? ==> m in old(staged) && live == old(live)[m := old(staged)[m]] && staged == old(staged) - {m}
      ensures r.Crash? ==>
        || (live == old(live) && staged == old(staged))
        || (m in old(staged) && live == old(live)[m := old(staged)[m]] && staged == old(staged) - {m})
    {
      r := *;
      faults := faults + Faults(r.Crash? || (r.Err? && m in staged && !(m.IsTree() && m in live)));
      var done: bool := *;
      if m !in staged || (m.IsTree() && m in live) {
        if r.Ok? {
          r := Err;
        }
      } else if r.Ok? || (r.Crash? && done) {
        live, staged := live[m := staged[m]], staged - {m};
      }
    }

    /** kubeadm.Ensure: writes under /etc/kubernetes and /var/lib/kubelet, completely or not; a running cluster writes
        beside it. */
    method WriteArtifacts() returns (r: Outcome)
      modifies this`live, this`answered, this`refused, this`faults
      ensures faults == old(faults) + Faults(!r.Ok?)
      ensures answered == old(answered) + if r.Ok? then [Artifacts] else []
      ensures refused == old(refused) + if r.Err? then [Artifacts] else []
      ensures !kubeletUp ==> (Etcd in live <==> Etcd in old(live))
      ensures !kubeletUp && Etcd in live ==> live[Etcd] == old(live)[Etcd]
    {
      r := *;
      var anything: Image := *;
      live := if kubeletUp then anything else anything - {Etcd} + (map m | m in live && m == Etcd :: live[m]);
      answered := answered + if r.Ok? then [Artifacts] else [];
      refused := refused + if r.Err? then [Artifacts] else [];
      faults := faults + Faults(!r.Ok?);
    }

    /** systemctl start kubelet.service. From here on the cluster writes its own data. */
    method StartKubelet() returns (r: Outcome)
      modifies this`live, this`kubeletUp, this`answered, this`refused, this`faults
      ensures faults == old(faults) + Faults(!r.Ok?)
      ensures answered == old(answered) + if r.Ok? then [Kubelet] else []
      ensures refused == old(refused) + if r.Err? then [Kubelet] else []
      ensures r.Ok? ==> kubeletUp
      ensures old(kubeletUp) ==> kubeletUp
      ensures !kubeletUp ==> live == old(live)
    {
      r := *;
      var queued: bool := *;
      kubeletUp := kubeletUp || r.Ok? || queued;
      if kubeletUp {
        var anything: Image := *;
        live := anything;
      }
      answered := answered + if r.Ok? then [Kubelet] else [];
      refused := refused + if r.Err? then [Kubelet] else [];
      faults := faults + Faults(!r.Ok?);
    }

    /** One of the later gates, with the cluster running beside it. */
    method Probe(gate: Gate) returns (r: Outcome)
      requires !gate.Artifacts? && !gate.Kubelet?
      modifies this`live, this`answered, this`refused, this`faults
      ensures faults == old(faults) + Faults(!r.Ok?)
      ensures answered == old(answered) + if r.Ok? then [gate] else []
      ensures refused == old(refused) + if r.Err? then [gate] else []
    {
      r := *;
      var anything: Image := *;
      live := anything;
      answered := answered + if r.Ok? then [gate] else [];
      refused := refused + if r.Err? then [gate] else [];
      faults := faults + Faults(!r.Ok?);
    }

    /** kubeadm.EnsureAddons, with the cluster running beside it. */
    method ApplyAddons() returns (r: Outcome)
      modifies this`live, this`deeds, this`faults
      ensures faults == old(faults) + Faults(!r.Ok?)
      ensures deeds == old(deeds) + [AddonsApplied]
    {
      r := *;
      deeds := deeds + [AddonsApplied];
      var anything: Image := *;
      live := anything;
      faults := faults + Faults(!r.Ok?);
    }

    /** sd_notify READY=1; it may not get through, or find no systemd to get through to. */
    method NotifyReady()
      modifies this`ready, this`deeds, this`faults
      ensures deeds == old(deeds) + [ReadySent]
      ensures old(ready) ==> ready
      ensures old(faults) + Faults(!ready) <= faults
    {
      var sent: bool := *;
      ready := ready || sent;
      deeds := deeds + [ReadySent];
      faults := faults + Faults(!sent);
    }

    // ---- the backups directory ----

    /** os.ReadDir: every name once. */
    method ReadDir() returns (r: Outcome, names: seq<string>)
      modifies this`faults
      ensures faults == old(faults) + Faults(!r.Ok?)
      ensures r.Ok? ==> forall n :: n in names <==> n in backups
      ensures r.Ok? ==> forall i, j :: 0 <= i < j < |names| ==> names[i] != names[j]
    {
      r := *;
      names := [];
      var rest := backups.Keys;
      while rest != {}
        invariant rest <= backups.Keys
        invariant forall n :: n in names <==> n in backups && n !in rest
        invariant forall i, j :: 0 <= i < j < |names| ==> names[i] != names[j]
        decreases |rest|
      {
        var n :| n in rest;
        rest := rest - {n};
        names := names + [n];
      }
      faults := faults + Faults(!r.Ok?);
    }

    /** os.MkdirAll of one entry. */
    method MakeFolder(n: string) returns (r: Outcome)
      modifies this`backups, this`faults
      ensures faults == old(faults) + Faults(!r.Ok?)
      ensures backups - {n} == old(backups) - {n}
      ensures n in old(backups) || r.Err? ==> backups == old(backups)
      ensures r.Ok? && n !in old(backups) ==> backups == old(backups)[n := Folder(map[], None, clock)]
    {
      r := *;
      var done: bool := *;
      if n !in backups && (r.Ok? || (r.Crash? && done)) {
        backups := backups[n := Folder(map[], None, clock)];
      }
      faults := faults + Faults(!r.Ok?);
    }

    /** `cp` of a live member into a backup under construction. */
    method CopyToFolder(m: Member, n: string) returns (r: Outcome)
      requires m in live
      requires n in backups && backups[n].Folder?
      modifies this`backups, this`faults
      ensures faults == old(faults) + Faults(!r.Ok?)
      ensures backups - {n} == old(backups) - {n}
      ensures r.Ok? ==> backups == old(backups)[n := old(backups)[n].(image := old(backups)[n].image[m := live[m]])]
    {
      r := *;
      var e := backups[n];
      if r.Ok? {
        backups := backups[n := e.(image := e.image[m := live[m]])];
      } else {
        var anything: Image := *;
        backups := backups[n := e.(image := anything)];
      }
      faults := faults + Faults(!r.Ok?);
    }

    /** os.WriteFile of meta.json into a backup under construction; stamps its directory. */
    method WriteMetaFile(n: string, meta: LastBoot) returns (r: Outcome)
      requires n in backups && backups[n].Folder?
      modifies this`backups, this`clock, this`faults
      ensures faults == old(faults) + Faults(!r.Ok?)
      ensures old(clock) <= clock
      ensures backups - {n} == old(backups) - {n}
      ensures r.Ok? ==> clock == old(clock) + 1
      ensures r.Ok? ==> backups == old(backups)[n := old(backups)[n].(meta := Some(meta), mtime := old(clock))]
    {
      r := *;
      var e := backups[n];
      if r.Ok? {
        backups := backups[n := e.(meta := Some(meta), mtime := clock)];
        clock := clock + 1;
      } else {
        backups := backups[n := e.(meta := None, mtime := clock)];
        clock := clock + 1;
      }
      faults := faults + Faults(!r.Ok?);
    }

    /** os.Rename inside the backups directory. */
    method RenameFolder(n: string, n': string) returns (r: Outcome)
      requires n in backups && n' !in backups
      modifies this`backups, this`faults
      ensures faults == old(faults) + Faults(!r.Ok?)
      ensures r.Err? ==> backups == old(backups)
      ensures r.Ok? ==> backups == (old(backups) - {n})[n' := old(backups)[n]]
      ensures r.Crash? ==> backups == old(backups) || backups == (old(backups) - {n})[n' := old(backups)[n]]
    {
      r := *;
      var done: bool := *;
      if r.Ok? || (r.Crash? && done) {
        backups := (backups - {n})[n' := backups[n]];
      }
      faults := faults + Faults(!r.Ok?);
    }

    /** os.RemoveAll on an entry, in place. */
    method RemoveFolder(n: string) returns (r: Outcome)
      modifies this`backups, this`clock, this`faults
      ensures faults == old(faults) + Faults(!r.Ok?)
      ensures old(clock) <= clock
      ensures backups - {n} == old(backups) - {n}
      ensures r.Ok? ==> backups == old(backups) - {n} && clock == old(clock)
      ensures n in backups ==> n in old(backups) && Remnant(old(backups)[n], backups[n], old(clock))
      ensures n in backups && backups[n] != old(backups)[n] ==> clock == old(clock) + 1
      ensures clock <= old(clock) + 1
    {
      r := *;
      if r.Ok? {
        backups := backups - {n};
      } else {
        var done: bool := *;
        var left: Entry := *;
        if done {
          backups := backups - {n};
        } else if n in backups && left.Folder? && backups[n].Folder?
            && left.image.Keys <= backups[n].image.Keys
            && (forall m | m in left.image.Keys :: left.image[m].Items <= backups[n].image[m].Items) {
          var kept, inside: bool := *, *;
          backups := backups[n := left.(meta := if kept then backups[n].meta else None,
                                        mtime := if inside then backups[n].mtime else clock)];
          clock := clock + 1;
        }
      }
      faults := faults + Faults(!r.Ok?);
    }

    /** os.Remove on the restore marker. */
    method UnlinkMarker() returns (r: Outcome)
      modifies this`backups, this`cleared, this`faults
      ensures faults == old(faults) + Faults(!r.Ok?)
      ensures cleared == r
      ensures r.Ok? ==> backups == old(backups) - {MARKER}
      ensures r.Err? ==> backups == old(backups)
      ensures r.Crash? ==> backups == old(backups) || backups == old(backups) - {MARKER}
    {
      r := *;
      var done: bool := *;
      if r.Ok? || (r.Crash? && done) {
        backups := backups - {MARKER};
      }
      cleared := r;
      faults := faults + Faults(!r.Ok?);
    }

    // ---- the state directory ----

    /** os.CreateTemp: a new, empty file with a dotted name. */
    method CreateTemp() returns (r: Outcome, name: string)
      modifies this`stateDir, this`faults
      ensures faults == old(faults) + Faults(!r.Ok?)
      ensures name != LAST_BOOT && name != LAST_EVENT
      ensures stateDir - {name} == old(stateDir) - {name}
      ensures r.Err? ==> stateDir == old(stateDir)
      ensures r.Ok? ==> name !in old(stateDir) && stateDir == old(stateDir)[name := Torn]
    {
      r := *;
      var suffix: string := *;
      name := ".tmp-" + suffix;
      assert name[0] == '.';
      if name in stateDir {
        if r.Ok? {
          r := Err;
        }
      } else if !r.Err? {
        stateDir := stateDir[name := Torn];
      }
      faults := faults + Faults(!r.Ok?);
    }

    /** Write to the temporary file. */
    method WriteTemp(name: string, doc: Doc) returns (r: Outcome)
      requires name in stateDir
      modifies this`stateDir, this`faults
      ensures faults == old(faults) + Faults(!r.Ok?)
      ensures stateDir - {name} == old(stateDir) - {name}
      ensures r.Ok? ==> stateDir == old(stateDir)[name := doc]
    {
      r := *;
      stateDir := stateDir[name := if r.Ok? then doc else Torn];
      faults := faults + Faults(!r.Ok?);
    }

    /** os.Rename inside the state directory. */
    method RenameState(from: string, to: string) returns (r: Outcome)
      requires from in stateDir && from != to
      modifies this`stateDir, this`faults
      ensures faults == old(faults) + Faults(!r.Ok?)
      ensures r.Err? ==> stateDir == old(stateDir)
      ensures r.Ok? ==> stateDir == (old(stateDir) - {from})[to := old(stateDir)[from]]
      ensures r.Crash? ==> stateDir == old(stateDir) || stateDir == (old(stateDir) - {from})[to := old(stateDir)[from]]
    {
      r := *;
      var done: bool := *;
      if r.Ok? || (r.Crash? && done) {
        stateDir := (stateDir - {from})[to := stateDir[from]];
      }
      faults := faults + Faults(!r.Ok?);
    }

    /** os.Remove of a temporary file; a missing one is an error like any other. */
    method RemoveTemp(name: string) returns (r: Outcome)
      modifies this`stateDir, this`faults
      ensures faults == old(faults) + Faults(r.Crash? || (r.Err? && name in old(stateDir)))
      ensures stateDir == if r.Ok? then old(stateDir) - {name} else old(stateDir)
    {
      r := *;
      faults := faults + Faults(r.Crash? || (r.Err? && name in stateDir));
      if name !in stateDir && r.Ok? {
        r := Err;
      } else if r.Ok? {
        stateDir := stateDir - {name};
      }
    }

    // ---- reset ----

    /** The cluster writes its own data, which is not under /etc/kubernetes. */
    method ClusterWrites()
      modifies this`live
      ensures !kubeletUp ==> live == old(live)
      ensures SameAt(old(live), live, Kubernetes)
    {
      if kubeletUp {
        var written: Image := *;
        live := (map m | m in written && !m.Kubernetes? :: written[m])
            + (map m | m in live && m.Kubernetes? :: live[m]);
      }
    }

    /** systemctl stop kubelet.service and the removal of the containers, as far as they succeed. While anything of the
        cluster is left running it goes on writing its own data. */
    method StopCluster() returns (r: Outcome)
      modifies this`live, this`kubeletUp, this`deeds, this`faults
      ensures faults == old(faults) + Faults(!r.Ok?)
      ensures deeds == old(deeds) + [ClusterStopped]
      ensures r.Ok? ==> !kubeletUp
      ensures kubeletUp ==> old(kubeletUp)
      ensures !old(kubeletUp) ==> live == old(live)
      ensures SameAt(old(live), live, Kubernetes)
    {
      r := *;
      var stopped: bool := *;
      ClusterWrites();
      kubeletUp := kubeletUp && !stopped && !r.Ok?;
      deeds := deeds + [ClusterStopped];
      faults := faults + Faults(!r.Ok?);
    }

    /** A lazy unmount. */
    method Detach(path: string) returns (r: Outcome)
      modifies this`deeds, this`faults
      ensures faults == old(faults) + Faults(!r.Ok?)
      ensures deeds == old(deeds) + [Detached(path)]
    {
      r := *;
      deeds := deeds + [Detached(path)];
      faults := faults + Faults(!r.Ok?);
    }

    /** os.RemoveAll on one of the subtrees that reset removes. The `.restoring` siblings of the kubelet files lie
        inside the kubelet directory, those of the two trees beside them; a state file is there whole or gone. */
    method RemoveSubtree(t: Subtree) returns (r: Outcome)
      modifies this`live, this`staged, this`backups, this`stateDir, this`deeds, this`faults
      ensures faults == old(faults) + Faults(!r.Ok?)
      ensures deeds == old(deeds) + [Removed(t)]
      ensures !kubeletUp ==> Outside(live, t) == Outside(old(live), t)
      ensures !kubeletUp && r.Ok? ==> live == Outside(old(live), t)
      ensures t.KubernetesDir? && r.Ok? ==> Kubernetes !in live
      ensures !t.KubernetesDir? ==> SameAt(old(live), live, Kubernetes)
      ensures Outside(staged, KubeletDir) == Outside(old(staged), KubeletDir)
      ensures !t.KubeletDir? ==> staged == old(staged)
      ensures t.KubeletDir? && r.Ok? ==> staged == Outside(old(staged), t)
      ensures t.NanoK8sVarDir? && r.Ok? ==> backups == map[] && stateDir == map[]
      ensures !t.NanoK8sVarDir? ==> backups == old(backups) && stateDir == old(stateDir)
      ensures forall n :: n in stateDir ==> n in old(stateDir) && stateDir[n] == old(stateDir)[n]
    {
      r := *;
      live := PartlyRemoved(live, t, r);
      OutsideAt(old(live), live, t);
      assert !t.KubernetesDir? ==> !Inside(t, Kubernetes);
      if t.KubeletDir? {
        staged := PartlyRemoved(staged, t, r);
      }
      if t.NanoK8sVarDir? {
        var gone: set<string> := *;
        var left: map<string, Entry> := *;
        backups := if r.Ok? then map[] else left;
        stateDir := if r.Ok? then map[] else stateDir - gone;
      }
      ClusterWrites();
      deeds := deeds + [Removed(t)];
      faults := faults + Faults(!r.Ok?);
    }
  }

  lemma OutsideAt(image: Image, image': Image, t: Subtree)
    requires Outside(image', t) == Outside(image, t)
    ensures forall m :: !Inside(t, m) ==> SameAt(image, image', m)
  {
    forall m | !Inside(t, m)
      ensures SameAt(image, image', m)
    {
      assert m in Outside(image, t) <==> m in image;
      assert m in Outside(image', t) <==> m in image';
      assert m in image ==> Outside(image, t)[m] == image[m] && Outside(image', t)[m] == image'[m];
    }
  }

  /** The live members inside a subtree. */
  predicate Inside(t: Subtree, m: Member) {
    match t
    case KubernetesDir => m.Kubernetes?
    case EtcdDataDir => m.Etcd?
    case KubeletDir => m.KubeletFile?
    case NanoK8sVarDir => false
  }

  function Outside(image: Image, t: Subtree): Image {
    map m | m in image && !Inside(t, m) :: image[m]
  }

  /** What a removal leaves of an image: nothing inside the subtree, or anything there if it did not succeed. */
  method PartlyRemoved(image: Image, t: Subtree, r: Outcome) returns (image': Image)
    ensures Outside(image', t) == Outside(image, t)
    ensures r.Ok? ==> image' == Outside(image, t)
  {
    image' := Outside(image, t);
    if !r.Ok? {
      var anything: Image := *;
      image' := image' + (map m | m in anything && Inside(t, m) :: anything[m]);
    }
  }
}
