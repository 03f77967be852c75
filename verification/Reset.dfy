/** cmd/nanok8s/reset.go: tearing the node down. */
module Reset {
  import opened FileSystem
  import Mounts
  import State

  /** What runReset removes, in its order. */
  const TARGETS: seq<Subtree> := [KubernetesDir, EtcdDataDir, KubeletDir, NanoK8sVarDir]

  /** A complete removal. */
  const REMOVALS: seq<Deed> :=
    [Removed(KubernetesDir), Removed(EtcdDataDir), Removed(KubeletDir), Removed(NanoK8sVarDir)]

  /** What a reset can leave behind, ended early or not. `quiet` says that nothing of the cluster was left running.
      The records go last: as long as the kubernetes tree, or any live member of a stopped cluster, is left they are
      untouched. */
  ghost predicate ResetOutcome(d: Disk, quiet: bool, d': Disk, r: Outcome) {
    && (r.Ok? ==> d'.backups == map[] && d'.lastBoot.None? && d'.lastEvent.None?)
    && (r.Ok? ==> Kubernetes !in d'.live)
    && (r.Ok? && quiet ==> d'.live == map[])
    && (r.Ok? ==> forall m: Member :: m in d'.staged ==> m.IsTree())
    && (forall m: Member :: m.IsTree() && m in d.staged ==> m in d'.staged && d'.staged[m] == d.staged[m])
    && ((quiet && d'.live != map[]) || Kubernetes in d'.live ==>
          d'.backups == d.backups && d'.lastBoot == d.lastBoot && d'.lastEvent == d.lastEvent)
    && d'.lastBoot in {d.lastBoot, None}
    && d'.lastEvent in {d.lastEvent, None}
  }

  /** The parts of the live data that the first k removals leave. */
  predicate Left(m: Member, k: nat)
    requires k <= |TARGETS|
  {
    forall j :: 0 <= j < k ==> !Inside(TARGETS[j], m)
  }

  lemma LeftNext(live: Image, k: nat)
    requires k < |TARGETS| && forall m :: m in live ==> Left(m, k)
    ensures forall m :: m in Outside(live, TARGETS[k]) ==> Left(m, k + 1)
  {}

  lemma NothingLeft(m: Member)
    ensures !Left(m, 3)
  {
    assert Inside(TARGETS[0], m) || Inside(TARGETS[1], m) || Inside(TARGETS[2], m);
  }

  lemma TreesStay(staged: Image, staged': Image)
    requires Outside(staged, KubeletDir) == Outside(staged', KubeletDir)
    ensures forall m: Member :: m.IsTree() && m in staged ==> m in staged' && staged'[m] == staged[m]
  {
    forall m: Member | m.IsTree() && m in staged
      ensures m in staged' && staged'[m] == staged[m]
    {
      assert m in Outside(staged, KubeletDir);
    }
  }

  /** runReset's removal loop: the first failure ends it. */
  method RemoveTargets(h: Host) returns (r: Outcome)
    requires h.Valid()
    modifies h`live, h`staged, h`backups, h`stateDir, h`deeds, h`faults
    ensures h.faults == old(h.faults) + Faults(!r.Ok?)
    ensures h.Valid()
    ensures ResetOutcome(old(h.OnDisk()), !h.kubeletUp, h.OnDisk(), r)
    ensures old(h.deeds) < h.deeds <= old(h.deeds) + REMOVALS
    ensures r.Ok? ==> h.deeds == old(h.deeds) + REMOVALS
  {
    r := Ok;
    for i := 0 to |TARGETS|
      invariant r.Ok? && h.Valid()
      invariant !h.kubeletUp ==> forall m :: m in h.live ==> Left(m, i)
      invariant i > 0 ==> Kubernetes !in h.live
      invariant h.faults == old(h.faults) && h.deeds == old(h.deeds) + REMOVALS[..i]
      invariant i < |TARGETS| ==> h.backups == old(h.backups) && h.stateDir == old(h.stateDir)
      invariant i == |TARGETS| ==> h.backups == map[] && h.stateDir == map[]
      invariant i >= 3 ==> h.staged == Outside(h.staged, KubeletDir)
      invariant Outside(h.staged, KubeletDir) == Outside(old(h.staged), KubeletDir)
    {
      if !h.kubeletUp {
        LeftNext(h.live, i);
      }
      r := h.RemoveSubtree(TARGETS[i]);
      assert REMOVALS[..i + 1] == REMOVALS[..i] + [Removed(TARGETS[i])];
      TreesStay(old(h.staged), h.staged);
      if !r.Ok? {
        forall m | i == 3 && !h.kubeletUp && m in h.live
          ensures false
        {
          assert m in Outside(h.live, NanoK8sVarDir);
          NothingLeft(m);
        }
        return;
      }
    }
    forall m | !h.kubeletUp && m in h.live
      ensures false
    {
      NothingLeft(m);
    }
  }

  /** What a reset does, in this order: it stops the cluster, detaches the mounts below the kubelet directory, inner
      ones before outer ones and all of them before anything is removed, and removes the four subtrees one after the
      other. */
  ghost predicate ResetDeeds(mounts: Option<string>, detached: seq<string>, removed: seq<Deed>, r: Outcome) {
    && (forall p :: p in detached ==> "/var/lib/kubelet/" <= p)
    && Mounts.ChildrenFirst(detached)
    && removed <= REMOVALS && (r.Ok? ==> removed == REMOVALS)
    && (removed != [] ==> multiset(detached) == if mounts.None? then multiset{} else Mounts.ToDetach(mounts.value))
  }

  lemma NothingRemovedYet(d: Disk, quiet: bool)
    ensures ResetOutcome(d, quiet, d, Crash)
  {}

  /** runReset up to its removals. */
  method Quiesce(h: Host, mounts: Option<string>) returns (r: Outcome, ghost live: Image, ghost detached: seq<string>)
    modifies h`live, h`kubeletUp, h`deeds, h`faults
    ensures old(h.faults) + Faults(r.Crash?) <= h.faults
    ensures !r.Err? && (h.faults == old(h.faults) ==> !h.kubeletUp)
    ensures h.deeds == old(h.deeds) + [ClusterStopped] + Mounts.Detachments(detached)
    ensures ResetDeeds(mounts, detached, [], Crash)
    ensures r.Ok? ==> multiset(detached) == if mounts.None? then multiset{} else Mounts.ToDetach(mounts.value)
    ensures h.kubeletUp ==> old(h.kubeletUp)
    ensures (old(h.kubeletUp) || live == old(h.live)) && SameAt(old(h.live), live, Kubernetes)
    ensures live == h.live
  {
    r := h.StopCluster();
    live, detached := h.live, [];
    if r.Crash? {
      assert Mounts.Detachments([]) == [];
      return;
    }
    var attempted, unmounted;
    ghost var answers;
    r, attempted, unmounted, answers := Mounts.UnmountKubeletMounts(h, mounts);
    detached := attempted;
  }

  /** runReset: the cluster is stopped, with `live` on disk, and its mounts detached as far as that goes; a cut ends it
      anywhere. */
  method RunReset(h: Host, mounts: Option<string>)
    returns (r: Outcome, ghost live: Image, ghost detached: seq<string>, ghost removed: seq<Deed>)
    requires h.Valid()
    modifies h`live, h`kubeletUp, h`staged, h`backups, h`stateDir, h`deeds, h`faults
    ensures old(h.faults) + Faults(!r.Ok?) <= h.faults
    ensures r.Ok? && h.faults == old(h.faults) ==> !h.kubeletUp
    ensures h.deeds == old(h.deeds) + [ClusterStopped] + Mounts.Detachments(detached) + removed
    ensures ResetDeeds(mounts, detached, removed, r)
    ensures h.Valid()
    ensures (old(h.kubeletUp) || live == old(h.live)) && SameAt(old(h.live), live, Kubernetes)
    ensures ResetOutcome(old(h.OnDisk()).(live := live), !h.kubeletUp, h.OnDisk(), r)
  {
    hide ResetOutcome, Mounts.ChildrenFirst, Mounts.ToDetach;
    r, live, detached := Quiesce(h, mounts);
    removed := [];
    NothingRemovedYet(h.OnDisk(), !h.kubeletUp);
    if r.Crash? {
      return;
    }
    ghost var before := h.deeds;
    r := RemoveTargets(h);
    removed := h.deeds[|before|..];
  }

  /** The reset command: without --yes it does nothing. */
  method Reset(h: Host, yes: bool, mounts: Option<string>)
    returns (r: Outcome, ghost detached: seq<string>, ghost removed: seq<Deed>)
    requires h.Valid()
    modifies h`live, h`kubeletUp, h`staged, h`backups, h`stateDir, h`deeds, h`faults
    ensures old(h.faults) + Faults(!r.Ok? && yes) <= h.faults
    ensures h.Valid()
    ensures !yes ==> r.Err? && h.OnDisk() == old(h.OnDisk()) && h.kubeletUp == old(h.kubeletUp)
    ensures !yes ==> h.deeds == old(h.deeds)
    ensures yes ==> h.deeds == old(h.deeds) + [ClusterStopped] + Mounts.Detachments(detached) + removed
    ensures yes ==> ResetDeeds(mounts, detached, removed, r)
    ensures r.Ok? && h.faults == old(h.faults) ==> !h.kubeletUp && h.live == map[]
    ensures r.Ok? ==> yes && !State.Recorded(h.OnDisk()) && h.backups == map[]
    ensures r.Ok? ==> !State.Existing(h.OnDisk())
    ensures r.Ok? && !h.kubeletUp ==> h.live == map[]
    ensures old(State.Recorded(h.OnDisk())) && ((!h.kubeletUp && h.live != map[]) || Kubernetes in h.live) ==>
              State.Recorded(h.OnDisk())
    ensures State.Recorded(h.OnDisk()) ==> old(State.Recorded(h.OnDisk()))
  {
    if !yes {
      return Err, [], [];
    }
    ghost var live;
    r, live, detached, removed := RunReset(h, mounts);
  }
}
