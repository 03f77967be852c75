/** cmd/nanok8s/bootstrap.go: the one-time initialisation, and when it refuses. */
module Bootstrap {
  import opened FileSystem
  import State

  /** What a bootstrap can leave behind; etcd's own tree is touched only by a cluster that is up. */
  ghost predicate BootstrapOutcome(d: Disk, force: bool, up: bool, d': Disk, r: Outcome) {
    && (!up ==> SameAt(d.live, d'.live, Etcd))
    && d' == d.(live := d'.live, lastEvent := d'.lastEvent)
    && (State.Existing(d) && !force ==> !r.Ok? && d' == d)
    && (r.Ok? ==> d'.lastEvent.Some?)
    && (d'.lastEvent == d.lastEvent || d'.lastEvent.Some?)
  }

  /** The bootstrap command. It refuses a node that exists unless forced; the event is written last, so that a bootstrap
      that fails before it leaves the records as they were. `configured` and `named` say whether the configuration loads
      and the host has a name. */
  method Bootstrap(h: Host, force: bool, configured: bool, named: bool, version: string) returns (r: Outcome)
    requires h.Valid()
    modifies h`live, h`stateDir, h`answered, h`refused, h`faults
    ensures old(h.faults) + Faults(!r.Ok? && (force || !old(State.Existing(h.OnDisk()))) && configured && named)
            <= h.faults
    ensures r.Ok? ==> h.faults == old(h.faults)
    ensures !configured || !named || (!force && old(State.Existing(h.OnDisk()))) ==>
              !r.Ok? && h.OnDisk() == old(h.OnDisk()) && h.answered == old(h.answered)
    ensures !force && Kubernetes in old(h.live) && "manifests/kube-apiserver.yaml" in old(h.live)[Kubernetes] ==>
              !r.Ok? && h.OnDisk() == old(h.OnDisk())
    ensures h.Valid()
    ensures BootstrapOutcome(old(h.OnDisk()), force, h.kubeletUp, h.OnDisk(), r)
    ensures r.Ok? ==> h.answered == old(h.answered) + [Artifacts]
    ensures r.Ok? ==> h.OnDisk().lastEvent == Some("bootstrapped at " + version)
    ensures r.Err? ==> h.OnDisk().lastEvent == old(h.OnDisk()).lastEvent
  {
    var existed;
    r, existed := State.Exists(h);
    if !r.Ok? {
      return;
    }
    if existed && !force {
      return Err;
    }
    if !configured || !named {
      return Err;
    }
    r := h.WriteArtifacts();
    if !r.Ok? {
      return;
    }
    r := State.WriteLastEvent(h, "bootstrapped at " + version);
  }
}
