/** What snapshot, restore and prune promise together. */
module BackupLaws {
  import opened FileSystem
  import opened Names
  import opened Backup
  import opened Recovery
  import Ostree

  // ---- snapshot and restore ----

  lemma RestoredSplit(live: Image, image: Image)
    ensures Snapshot(Restored(live, image)) == Snapshot(image)
    ensures Unmanaged(Restored(live, image)) == Unmanaged(live)
  {
    forall m: Member
      ensures m in MEMBERS[..|MEMBERS|] <==> Managed(m)
    {
      assert MEMBERS[..|MEMBERS|] == MEMBERS;
      MembersAreManaged(m);
    }
  }

  lemma ImageSplit(a: Image, b: Image)
    requires Snapshot(a) == Snapshot(b) && Unmanaged(a) == Unmanaged(b)
    ensures a == b
  {
    forall m: Member
      ensures m in a <==> m in b
      ensures m in a ==> a[m] == b[m]
    {
      if Managed(m) {
        assert m in a <==> m in Snapshot(a);
        assert m in b <==> m in Snapshot(b);
        assert m in a ==> Snapshot(a)[m] == a[m] && Snapshot(b)[m] == b[m];
      } else {
        assert m in a <==> m in Unmanaged(a);
        assert m in b <==> m in Unmanaged(b);
        assert m in a ==> Unmanaged(a)[m] == a[m] && Unmanaged(b)[m] == b[m];
      }
    }
  }

  /** A restore depends on the live data only through what it does not manage. */
  lemma RestoredForgetsManaged(live: Image, live': Image, image: Image)
    requires Unmanaged(live) == Unmanaged(live')
    ensures Restored(live, image) == Restored(live', image)
  {
    RestoredSplit(live, image);
    RestoredSplit(live', image);
    ImageSplit(Restored(live, image), Restored(live', image));
  }

  lemma SnapshotTwice(live: Image)
    ensures Snapshot(Snapshot(live)) == Snapshot(live)
  {}

  lemma ManagedAreTheFive(m: Member)
    ensures Managed(m) <==> m in RESTORE_ORDER
  {
    assert KUBELET_STATE_FILES == ["config.yaml", "instance-config.yaml", "kubeadm-flags.env"];
    assert m.KubeletFile? ==> m == KubeletFile(m.name);
  }

  /** Whatever happened to the disk after a snapshot, leftovers of earlier restores included: as long as the
      backup is there, restoring it brings all five managed members back, absences too, and nothing else moves. */
  lemma CreateRestoreRoundTrip(d: Disk, meta: LastBoot, d': Disk)
    requires Name(meta) !in d.backups
    requires Name(meta) in d'.backups && d'.backups[Name(meta)] == AfterCreate(d, meta).backups[Name(meta)]
    ensures var e := d'.backups[Name(meta)];
            && e.Folder? && e.meta == Some(meta)
            && var d'' := AfterRestore(d', e.image);
               && Snapshot(d''.live) == Snapshot(d.live)
               && Unmanaged(d''.live) == Unmanaged(d'.live)
               && d'' == d'.(live := d''.live, staged := d''.staged)
               && (forall m :: SameAt(if m in RESTORE_ORDER then d.live else d'.live, d''.live, m))
               && forall m :: m in d'.staged && !Managed(m) ==> m in d''.staged && d''.staged[m] == d'.staged[m]
  {
    forall m
      ensures SameAt(if m in RESTORE_ORDER then d.live else d'.live, AfterRestore(d', Snapshot(d.live)).live, m)
    {
      ManagedAreTheFive(m);
      MembersAreManaged(m);
      assert MEMBERS[..|MEMBERS|] == MEMBERS;
      RestoredUpToAt(d'.live, Snapshot(d.live), |MEMBERS|, m);
    }
    var image := Snapshot(d.live);
    RestoredSplit(d'.live, image);
    SnapshotTwice(d.live);
    forall m | m in d'.staged && !Managed(m)
      ensures m in StagedUpTo(d'.staged, image, |MEMBERS|)
    {
      MembersAreManaged(m);
    }
  }

  /** A listed entry that can be restored and says whose it is. */
  ghost predicate Complete(b: Backups, n: string) {
    n in b && b[n].Folder? && b[n].meta.Some? && Name(b[n].meta.value) == n
  }

  ghost predicate AllComplete(b: Backups) {
    forall n :: n in b && Listed(b, n) ==> Complete(b, n)
  }

  /** However a Create ends, List goes on showing complete backups only: the old ones as they were, and at most
      the new one. Its staging directory is never among them. */
  lemma CreateKeepsComplete(d: Disk, meta: LastBoot, d': Disk, r: Outcome)
    requires CreateOutcome(d, meta, d', r)
    ensures forall n :: n in d'.backups && Listed(d'.backups, n) ==>
              || (Listed(d.backups, n) && d'.backups[n] == d.backups[n])
              || (n == Name(meta) && d'.backups[n] == Folder(Snapshot(d.live), Some(meta), d.clock))
    ensures forall n :: n in d.backups && Listed(d.backups, n) ==> n in d'.backups && d'.backups[n] == d.backups[n]
    ensures AllComplete(d.backups) ==> AllComplete(d'.backups)
  {
    var tmp := TmpName(meta);
    TmpHasSuffix(Name(meta));
    forall n | n != tmp && n != Name(meta)
      ensures n in d.backups <==> n in d'.backups
      ensures n in d.backups ==> d'.backups[n] == d.backups[n]
    {
      assert n in d.backups <==> n in d.backups - {tmp};
      assert n in d'.backups <==> n in d'.backups - {tmp};
      if n in d.backups {
        assert (d.backups - {tmp})[n] == d.backups[n];
        assert (d'.backups - {tmp})[n] == d'.backups[n];
      }
    }
    assert Name(meta) != tmp;
    assert Name(meta) in d.backups ==> d' == d;
    if CreateUnfinished(d, meta, d') && Name(meta) in d'.backups {
      assert Name(meta) in d'.backups - {tmp};
    }
  }

  /** After a successful Create the boot's own data is in the backup, over whatever was staged before;
      a second Create changes nothing. */
  lemma CreateFirstWins(d: Disk, meta: LastBoot, d1: Disk, d2: Disk, d3: Disk)
    requires CreateOutcome(d, meta, d1, Ok)
    requires d2 == d1.(live := d2.live, staged := d2.staged, lastEvent := d2.lastEvent)
    requires CreateOutcome(d2, meta, d3, Ok)
    ensures d3 == d2
    ensures Name(meta) !in d.backups ==> d3.backups[Name(meta)] == Folder(Snapshot(d.live), Some(meta), d.clock)
  {}

  // ---- prune ----

  /** No two listed backups carry the same time stamp. */
  ghost predicate DistinctStamps(b: Backups) {
    forall n, k :: n in b && k in b && Listed(b, n) && Listed(b, k) && n != k ==> b[n].mtime != b[k].mtime
  }

  /** A candidate of an underscore-free deployment is a member of Prune's group for it. */
  lemma CandidateIsGroupMember(b: Backups, d: string, n: string)
    requires '_' !in d
    ensures Candidate(b, d, n) <==> Listed(b, n) && Before(n) == d
  {
    if Listed(b, n) {
      PrefixIsCut(d, n);
    }
  }

  /** n is a listed entry of underscore-free deployment d and, by distinct stamps, the newest. */
  ghost predicate NewestOf(b: Backups, d: string, n: string) {
    && '_' !in d && DistinctStamps(b) && Listed(b, n) && Before(n) == d
    && forall k :: k in b && Listed(b, k) && Before(k) == d ==> b[k].mtime <= b[n].mtime
  }

  /** It is what Prune keeps ... */
  lemma NewestIsSpared(b: Backups, known: set<string>, head: map<string, string>, n: string, d: string)
    requires NewestOf(b, d, n) && Chooses(b, known, head) && d in known
    ensures n !in DoomedSet(b, known, head)
  {}

  /** ... and what LatestForDeployment answers. */
  lemma NewestIsCandidate(b: Backups, d: string, n: string, name: string)
    requires NewestOf(b, d, n) && IsLatest(b, d, name)
    ensures name == n
  {
    CandidateIsGroupMember(b, d, name);
    CandidateIsGroupMember(b, d, n);
  }

  /** The order in which Prune visits its groups, and the sort it uses, make no difference. */
  lemma PruneOrderIndependent(b: Backups, known: set<string>, head: map<string, string>, head': map<string, string>)
    requires DistinctStamps(b)
    requires ChoosesAll(b, known, head) && ChoosesAll(b, known, head')
    ensures head == head' && PrunedBy(b, known, head) == PrunedBy(b, known, head')
  {}

  /** What remains listed after Prune: of every known deployment that had any, exactly one, and that a newest one;
      of unknown deployments none. Unlisted entries stay. */
  lemma PruneLeavesHeads(b: Backups, known: set<string>, head: map<string, string>)
    requires ChoosesAll(b, known, head)
    ensures var b' := PrunedBy(b, known, head);
            && (forall n :: n in b && !Listed(b, n) ==> n in b' && b'[n] == b[n])
            && (forall n :: n in b' ==> n in b && b'[n] == b[n])
            && (forall n :: n in b' && Listed(b', n) <==> exists d :: d in head && head[d] == n)
            && (forall n, k :: n in b' && k in b' && Listed(b', n) && Listed(b', k) && Before(n) == Before(k) ==>
                n == k)
            && (forall n :: n in b && Listed(b, n) && Before(n) in known ==>
                  head[Before(n)] in b' && b[n].mtime <= b'[head[Before(n)]].mtime)
  {}

  /** One backup of each known deployment at most, and none of any other. */
  ghost predicate Tidy(b: Backups, known: set<string>) {
    forall n, k :: n in b && k in b && Listed(b, n) && Listed(b, k) ==>
        Before(n) in known && (Before(n) == Before(k) ==> n == k)
  }

  lemma PruneTidies(b: Backups, known: set<string>, head: map<string, string>)
    requires ChoosesAll(b, known, head)
    ensures Tidy(PrunedBy(b, known, head), known)
  {
    PruneLeavesHeads(b, known, head);
  }

  /** A second Prune finds nothing to do. */
  lemma PruneIdempotent(b: Backups, known: set<string>, head: map<string, string>, head': map<string, string>)
    requires ChoosesAll(b, known, head)
    requires ChoosesAll(PrunedBy(b, known, head), known, head')
    ensures PrunedBy(PrunedBy(b, known, head), known, head') == PrunedBy(b, known, head)
  {}

  /** The restore candidate of a known deployment survives Prune and stays the answer. */
  lemma PruneKeepsLatest(b: Backups, known: set<string>, head: map<string, string>, d: string, n: string)
    requires DistinctStamps(b) && ChoosesAll(b, known, head)
    requires d in known && '_' !in d
    requires IsLatest(b, d, n)
    ensures IsLatest(PrunedBy(b, known, head), d, n)
  {
    var b' := PrunedBy(b, known, head);
    forall k
      ensures Candidate(b, d, k) <==> Listed(b, k) && Before(k) == d
      ensures Candidate(b', d, k) <==> Listed(b', k) && Before(k) == d
    {
      CandidateIsGroupMember(b, d, k);
      CandidateIsGroupMember(b', d, k);
    }
    if n != "" {
      assert Before(n) in head && Listed(b, head[d]) && Before(head[d]) == d;
      assert head[d] == n;
    }
  }

  /** In particular for the booted deployment: it is a member of the list it was read from. */
  lemma BootedCandidateSurvives(status: seq<Ostree.Deployment>, booted: string, b: Backups, head: map<string, string>,
      n: string)
    requires exists i :: 0 <= i < |status| && status[i] == Ostree.Deployment(booted, true)
    requires '_' !in booted && DistinctStamps(b)
    requires ChoosesAll(b, Elements(Ostree.Ids(status)), head)
    requires IsLatest(b, booted, n)
    ensures IsLatest(PrunedBy(b, Elements(Ostree.Ids(status)), head), booted, n)
  {
    var i :| 0 <= i < |status| && status[i] == Ostree.Deployment(booted, true);
    assert Ostree.Ids(status)[i] == booted;
    PruneKeepsLatest(b, Elements(Ostree.Ids(status)), head, booted, n);
  }

  /** Entries as Create makes them: complete, and of a deployment and a boot that have ids. */
  ghost predicate AllCreated(b: Backups) {
    AllComplete(b) && forall n :: n in b && Listed(b, n) ==> Nameable(b[n].meta.value)
  }

  /** Prune never costs deployment `d` its restore candidate. */
  ghost predicate PruneSparesLatest(known: set<string>, d: string) {
    forall b: Backups, head, n ::
      AllCreated(b) && DistinctStamps(b) && ChoosesAll(b, known, head) && IsLatest(b, d, n) ==>
        IsLatest(PrunedBy(b, known, head), d, n)
  }

  /** Underscores in deployment ids are where Prune's cut and LatestForDeployment's prefix part ways:
      a known deployment keeps its restore candidate through every Prune exactly when its id has none. */
  lemma PruneSparesLatestIff(known: set<string>, d: string)
    requires d in known
    ensures PruneSparesLatest(known, d) <==> '_' !in d
  {
    if '_' !in d {
      forall b: Backups, head, n | AllCreated(b) && DistinctStamps(b) && ChoosesAll(b, known, head) && IsLatest(b, d, n)
        ensures IsLatest(PrunedBy(b, known, head), d, n)
      {
        PruneKeepsLatest(b, known, head, d, n);
      }
    } else {
      UnderscoreLoss(known, d);
    }
  }

  /** For an id with an underscore: a backup of it, and a newer one of another id that is cut at the same place. */
  ghost function LossyBackups(d: string): Backups {
    map[Join(d, "1") := Folder(map[], Some(LastBoot("v", d, "1")), 0),
        Join(d + "0", "2") := Folder(map[], Some(LastBoot("v", d + "0", "2")), 1)]
  }

  ghost function LossyHead(known: set<string>, d: string): map<string, string> {
    if Before(d) in known then map[Before(d) := Join(d + "0", "2")] else map[]
  }

  lemma LossyNames(d: string)
    requires '_' in d
    ensures Before(Join(d, "1")) == Before(d) == Before(Join(d + "0", "2"))
    ensures HasPrefix(Join(d, "1"), d + "_") && !HasPrefix(Join(d + "0", "2"), d + "_")
    ensures Listed(LossyBackups(d), Join(d, "1")) && Listed(LossyBackups(d), Join(d + "0", "2"))
  {
    var i := FirstUnderscore(d);
    assert i < |d| by {
      assert d[..|d|] == d;
    }
    var older, newer := Join(d, "1"), Join(d + "0", "2");
    assert older[..i] == d[..i] && older[i] == '_';
    FirstUnderscoreUnique(older, i);
    assert newer[..i] == d[..i] && newer[i] == '_';
    FirstUnderscoreUnique(newer, i);
    assert older[..|d| + 1] == d + "_" && newer[|d|] == '0';
    forall suffix | suffix == TMP_SUFFIX || suffix == RESTORING_SUFFIX
      ensures !HasSuffix(older, suffix) && !HasSuffix(newer, suffix)
    {
      SuffixOfJoin(d, "1", suffix);
      SuffixOfJoin(d + "0", "2", suffix);
    }
  }

  lemma UnderscoreLoss(known: set<string>, d: string)
    requires '_' in d
    ensures AllCreated(LossyBackups(d)) && DistinctStamps(LossyBackups(d))
    ensures ChoosesAll(LossyBackups(d), known, LossyHead(known, d))
    ensures IsLatest(LossyBackups(d), d, Join(d, "1"))
    ensures !IsLatest(PrunedBy(LossyBackups(d), known, LossyHead(known, d)), d, Join(d, "1"))
  {
    var b, head := LossyBackups(d), LossyHead(known, d);
    LossyNames(d);
    hide Listed, Before, Join;
    assert forall n :: n in b ==> n == Join(d, "1") || n == Join(d + "0", "2");
    assert Doomed(b, known, head, Join(d, "1"));
    assert Join(d, "1") !in PrunedBy(b, known, head);
  }

  /** A Prune that stopped early has not touched the only entry of a known deployment. */
  lemma OnlyEntrySpared(d: Disk, known: set<string>, head: map<string, string>, torn: Option<string>, d': Disk,
      r: Outcome,
                        deployment: string, n: string)
    requires PruneOutcome(d, known, head, torn, d', r)
    requires '_' !in deployment && deployment in known
    requires n != "" && IsLatest(d.backups, deployment, n)
    requires forall k :: k in d.backups && Listed(d.backups, k) && Before(k) == deployment ==> k == n
    ensures IsLatest(d'.backups, deployment, n)
  {
    var b, b' := d.backups, d'.backups;
    CandidateIsGroupMember(b, deployment, n);
    assert n !in DoomedSet(b, known, head);
    forall k | k in b' && Candidate(b', deployment, k)
      ensures k == n
    {
      CandidateIsGroupMember(b', deployment, k);
      assert Listed(b, k);
    }
  }

  /** What is left of `k` when its removal is cut once meta.json is gone. */
  ghost function TornAt(d: Disk, k: string): Disk
    requires k in d.backups && d.backups[k].Folder?
  {
    d.(backups := d.backups[k := d.backups[k].(meta := None, mtime := d.clock)], clock := d.clock + 1)
  }

  /** Any other entry of the deployment can be torn, and then passes for the newest. */
  lemma OtherEntryMisleads(d: Disk, known: set<string>, deployment: string, n: string, k: string)
    requires forall j :: j in d.backups && Listed(d.backups, j) ==> d.backups[j].mtime < d.clock
    requires DistinctStamps(d.backups)
    requires '_' !in deployment && deployment in known
    requires n != "" && IsLatest(d.backups, deployment, n)
    requires Listed(d.backups, k) && Before(k) == deployment && k != n
    ensures PruneOutcome(d, known, map[deployment := n], Some(k), TornAt(d, k), Crash)
    ensures !IsLatest(TornAt(d, k).backups, deployment, n)
  {
    var b, b' := d.backups, TornAt(d, k).backups;
    CandidateIsGroupMember(b, deployment, n);
    forall j | j in b && Listed(b, j) && Before(j) == deployment
      ensures b[j].mtime <= b[n].mtime
    {
      CandidateIsGroupMember(b, deployment, j);
    }
    CandidateIsGroupMember(b', deployment, k);
    assert Remnant(b[k], b'[k], d.clock);
    assert k in DoomedSet(b, known, map[deployment := n]);
    assert Candidate(b', deployment, k) && b'[k].mtime == d.clock;
  }

  /** A removal works in place and can leave an entry with a fresh stamp behind if it is cut. A deployment keeps its
      restore candidate through every Prune, cut or failing anywhere, exactly when that is the only backup it has. */
  lemma CutPruneHarmlessIff(d: Disk, known: set<string>, deployment: string, n: string)
    requires forall k :: k in d.backups && Listed(d.backups, k) ==> d.backups[k].mtime < d.clock
    requires DistinctStamps(d.backups)
    requires '_' !in deployment && deployment in known
    requires n != "" && IsLatest(d.backups, deployment, n)
    ensures (forall head, torn, d', r :: PruneOutcome(d, known, head, torn, d', r) ==>
            IsLatest(d'.backups, deployment, n))
            <==> (forall k :: k in d.backups && Listed(d.backups, k) && Before(k) == deployment ==> k == n)
  {
    hide PruneOutcome, IsLatest, Listed, Before, DistinctStamps, TornAt;
    if forall k :: k in d.backups && Listed(d.backups, k) && Before(k) == deployment ==> k == n {
      forall head, torn, d', r | PruneOutcome(d, known, head, torn, d', r)
        ensures IsLatest(d'.backups, deployment, n)
      {
        OnlyEntrySpared(d, known, head, torn, d', r, deployment, n);
      }
    } else {
      var k :| k in d.backups && Listed(d.backups, k) && Before(k) == deployment && k != n;
      OtherEntryMisleads(d, known, deployment, n, k);
    }
  }

  // ---- interrupted restores ----

  /** Where a chain of power cuts inside maybeRestore can have got to, starting from `d0`. */
  ghost predicate Progress(d0: Disk, deployment: string, n: string, d: Disk)
    requires IsLatest(d0.backups, deployment, n)
  {
    if !Marked(d0) then
      d == d0
    else if deployment == "" || n == "" then
      && d == d0.(lastEvent := d.lastEvent, backups := d.backups)
      && d.backups in {d0.backups, d0.backups - {MARKER}}
    else
      && Unmanaged(d.live) == Unmanaged(d0.live)
      && (|| (d.backups == d0.backups && d.lastBoot in {d0.lastBoot, d0.backups[n].meta})
          || RestoreFinished(d0, n, d))
  }

  ghost predicate RestoreFinished(d0: Disk, n: string, d: Disk)
    requires n in d0.backups && d0.backups[n].Folder?
  {
    && d.live == Restored(d0.live, d0.backups[n].image)
    && d.lastBoot == d0.backups[n].meta
    && d.backups in {d0.backups, d0.backups - {MARKER}}
  }

  /** What an attempt that returns nil has to leave. */
  ghost predicate Settled(d0: Disk, deployment: string, n: string, d: Disk)
    requires IsLatest(d0.backups, deployment, n)
  {
    && d.backups - {MARKER} == d0.backups - {MARKER}
    && (if Marked(d0) && deployment != "" && n != "" then RestoreFinished(d0, n, d)
        else d.live == d0.live && d.lastBoot == d0.lastBoot)
  }

  /** Removing the marker changes no candidate. */
  lemma MarkerIsNoCandidate(b: Backups, deployment: string, n: string)
    ensures IsLatest(b, deployment, n) ==> IsLatest(b - {MARKER}, deployment, n)
  {}

  /** ... and neither does placing it. */
  lemma MarkerPlacedIsNoCandidate(b: Backups, deployment: string)
    ensures HasCandidate(b, deployment) ==> HasCandidate(b[MARKER := Plain], deployment)
  {
    var b' := b[MARKER := Plain];
    if n :| n in b && Candidate(b, deployment, n) {
      assert '_' !in MARKER;
      assert n in b' && Candidate(b', deployment, n);
    }
  }

  lemma LatestIsUnique(b: Backups, deployment: string, n: string, k: string)
    requires DistinctStamps(b)
    requires IsLatest(b, deployment, n) && IsLatest(b, deployment, k)
    ensures n == k
  {}

  /** An attempt after which it can go on: it returned nil, or was cut, or failed and left the marker. */
  ghost predicate Attempt(d: Disk, deployment: string, name: string, failed: bool, d': Disk, r: Outcome) {
    MaybeRestoreOutcome(d, deployment, name, failed, d', r) && (failed ==> Marked(d'))
  }

  /** An attempt that finds the marker. */
  lemma MarkedAttempt(
    d0: Disk, deployment: string, n: string, d: Disk, name: string, failed: bool, d': Disk, r: Outcome)
    requires IsLatest(d0.backups, deployment, n) && Marked(d0) && d.backups == d0.backups
    requires Progress(d0, deployment, n, d) && Attempt(d, deployment, name, failed, d', r)
    requires name in {"", n}
    ensures Progress(d0, deployment, n, d')
    ensures r.Ok? ==> Settled(d0, deployment, n, d')
  {
    hide PartWay, Restored;
    if name != "" {
      RestoredForgetsManaged(d.live, d0.live, d0.backups[n].image);
      RestoredSplit(d.live, d0.backups[n].image);
    }
  }

  /** One more attempt, completed, cut, or failed with the marker still in place. */
  lemma AttemptKeepsProgress(
    d0: Disk, deployment: string, n: string, d: Disk, name: string, failed: bool, d': Disk, r: Outcome)
    requires DistinctStamps(d0.backups) && IsLatest(d0.backups, deployment, n)
    requires Progress(d0, deployment, n, d) && Attempt(d, deployment, name, failed, d', r)
    ensures Progress(d0, deployment, n, d')
    ensures r.Ok? ==> Settled(d0, deployment, n, d')
  {
    MarkerIsNoCandidate(d0.backups, deployment, n);
    if Marked(d0) && Marked(d) {
      assert d.backups == d0.backups;
      assert name in {"", n} by {
        if name != "" {
          LatestIsUnique(d0.backups, deployment, n, name);
        }
      }
      hide Attempt, Progress, Settled, IsLatest;
      MarkedAttempt(d0, deployment, n, d, name, failed, d', r);
    }
  }

  /** An attempt that was cut somewhere, or failed and left the marker. */
  ghost predicate LeftOff(d: Disk, deployment: string, name: string, d': Disk) {
    exists failed, r :: Attempt(d, deployment, name, failed, d', r) && !r.Ok?
  }

  /** A chain of them. */
  ghost predicate CutAttempts(ds: seq<Disk>, names: seq<string>, deployment: string) {
    && |ds| == |names| + 1
    && forall i :: 0 <= i < |names| ==> LeftOff(ds[i], deployment, names[i], ds[i + 1])
  }

  lemma {:induction false} CutAttemptsProgress(ds: seq<Disk>, names: seq<string>, deployment: string, n: string)
    requires CutAttempts(ds, names, deployment)
    requires DistinctStamps(ds[0].backups) && IsLatest(ds[0].backups, deployment, n)
    ensures Progress(ds[0], deployment, n, ds[|names|])
  {
    hide Attempt, Progress;
    if |names| > 0 {
      var k := |names| - 1;
      assert ds[..k + 1][0] == ds[0];
      assert LeftOff(ds[k], deployment, names[k], ds[k + 1]);
      CutAttemptsProgress(ds[..k + 1], names[..k], deployment, n);
      var failed, r :| Attempt(ds[k], deployment, names[k], failed, ds[k + 1], r) && !r.Ok?;
      AttemptKeepsProgress(ds[0], deployment, n, ds[k], names[k], failed, ds[k + 1], r);
    } else {
      ProgressStarts(ds[0], deployment, n);
    }
  }

  lemma ProgressStarts(d: Disk, deployment: string, n: string)
    requires IsLatest(d.backups, deployment, n)
    ensures Progress(d, deployment, n, d)
  {}

  /** Any number of power cuts at any point of maybeRestore, and of errors that leave the marker, then one attempt that
      completes, ends with the same live data and the same last boot as one attempt that was never cut, and with the
      same backups. */
  lemma CrashIdempotentRestore(ds: seq<Disk>, names: seq<string>, deployment: string, n: string,
                               name: string, d': Disk, name'': string, d'': Disk)
    requires CutAttempts(ds, names, deployment)
    requires DistinctStamps(ds[0].backups) && IsLatest(ds[0].backups, deployment, n)
    requires MaybeRestoreOutcome(ds[|names|], deployment, name, false, d', Ok)
    requires MaybeRestoreOutcome(ds[0], deployment, name'', false, d'', Ok)
    ensures d'.live == d''.live && d'.lastBoot == d''.lastBoot
    ensures d'.backups - {MARKER} == d''.backups - {MARKER} == ds[0].backups - {MARKER}
  {
    CutAttemptsProgress(ds, names, deployment, n);
    ProgressStarts(ds[0], deployment, n);
    AttemptKeepsProgress(ds[0], deployment, n, ds[|names|], name, false, d', Ok);
    AttemptKeepsProgress(ds[0], deployment, n, ds[0], name'', false, d'', Ok);
  }

  /** A member that is the old one or the backup's, whole, or a tree of which some or all has gone. */
  ghost predicate Unmixed(live0: Image, image: Image, live: Image, m: Member) {
    || SameAt(live0, live, m) || SameAt(image, live, m)
    || (m.IsTree() && (m !in live || ShrunkAt(live0, live, m) || ShrunkAt(image, live, m)))
  }

  lemma PartWayStaysUnmixed(live0: Image, image: Image, live: Image, live': Image, m: Member)
    requires Unmixed(live0, image, live, m) && PartWay(live, image, live', m)
    ensures Unmixed(live0, image, live', m)
  {}

  /** What one attempt does to a member. */
  lemma AttemptIsPartWay(
    d: Disk, deployment: string, n: string, name: string, failed: bool, d': Disk, r: Outcome, m: Member)
    requires IsLatest(d.backups, deployment, n) && n != "" && name in {"", n}
    requires MaybeRestoreOutcome(d, deployment, name, failed, d', r)
    requires Managed(m)
    ensures PartWay(d.live, d.backups[n].image, d'.live, m)
  {
    if name != "" {
      if RestoredTo(d, n, d'.(backups := d.backups)) {
        RestoredSplit(d.live, d.backups[n].image);
        SnapshotAt(d'.live, d.backups[n].image, m);
      }
    }
  }

  lemma SnapshotAt(a: Image, b: Image, m: Member)
    requires Snapshot(a) == Snapshot(b) && Managed(m)
    ensures SameAt(b, a, m)
  {
    assert m in a <==> m in Snapshot(a);
    assert m in b <==> m in Snapshot(b);
    assert m in a ==> Snapshot(a)[m] == a[m] && Snapshot(b)[m] == b[m];
  }

  /** However often a restore is cut or fails, no member ever mixes old and restored data, and the three files are
      always whole. */
  lemma {:induction false} CutsNeverMix(ds: seq<Disk>, names: seq<string>, deployment: string, n: string, m: Member)
    requires CutAttempts(ds, names, deployment)
    requires DistinctStamps(ds[0].backups) && IsLatest(ds[0].backups, deployment, n) && n != "" && Marked(ds[0])
    requires Managed(m)
    ensures Unmixed(ds[0].live, ds[0].backups[n].image, ds[|names|].live, m)
  {
    if |names| > 0 {
      var k := |names| - 1;
      assert ds[..k + 1][0] == ds[0];
      assert LeftOff(ds[k], deployment, names[k], ds[k + 1]);
      hide Attempt, Progress, Unmixed, IsLatest, DistinctStamps;
      CutsNeverMix(ds[..k + 1], names[..k], deployment, n, m);
      CutAttemptsProgress(ds[..k + 1], names[..k], deployment, n);
      CutAttemptsProgress(ds, names, deployment, n);
      var failed, r :| Attempt(ds[k], deployment, names[k], failed, ds[k + 1], r) && !r.Ok?;
      CutKeepsUnmixed(ds[0], deployment, n, ds[k], names[k], failed, ds[k + 1], r, m);
    }
  }

  lemma CutKeepsUnmixed(d0: Disk, deployment: string, n: string, d: Disk, name: string, failed: bool, d': Disk,
                        r: Outcome, m: Member)
    requires DistinctStamps(d0.backups) && IsLatest(d0.backups, deployment, n) && n != "" && Marked(d0)
    requires Progress(d0, deployment, n, d) && Progress(d0, deployment, n, d')
    requires Attempt(d, deployment, name, failed, d', r)
    requires Managed(m) && Unmixed(d0.live, d0.backups[n].image, d.live, m)
    ensures Unmixed(d0.live, d0.backups[n].image, d'.live, m)
  {
    if deployment != "" {
      if d.backups == d0.backups {
        if name != "" {
          LatestIsUnique(d.backups, deployment, n, name);
        }
        AttemptIsPartWay(d, deployment, n, name, failed, d', r, m);
        PartWayStaysUnmixed(d0.live, d0.backups[n].image, d.live, d'.live, m);
      } else {
        assert !Marked(d);
      }
    }
  }

  /** Unless an error is on its way out, the marker outlives everything but a written last-boot record
      (or the finding that there is nothing to restore), and no backup changes. */
  lemma MarkerGuardsRestore(d: Disk, deployment: string, name: string, failed: bool, d': Disk, r: Outcome)
    requires MaybeRestoreOutcome(d, deployment, name, failed, d', r)
    ensures d'.backups - {MARKER} == d.backups - {MARKER}
    ensures Marked(d) && !Marked(d') ==>
              failed || RestoredTo(d, name, d'.(backups := d.backups))
                  || (name == "" && NothingToRestore(d, deployment))
    ensures Marked(d) && !failed && d'.live != d.live ==> Marked(d') || RestoredTo(d, name, d'.(backups := d.backups))
  {}

  // ---- where an interrupted restore costs data ----

  /** A restore of this image has something to do, or a tree to take down: its middle is visible. */
  predicate Exposed(live: Image, image: Image) {
    Etcd in live || Kubernetes in live || Snapshot(live) != Snapshot(image)
  }

  /** Live data in the middle of a restore. */
  ghost function Disturbed(live: Image, image: Image): (live': Image)
    requires Exposed(live, image)
    ensures Snapshot(live') != Snapshot(live) && Unmanaged(live') == Unmanaged(live)
    ensures forall m :: Managed(m) ==> PartWay(live, image, live', m)
  {
    if Etcd in live then
      assert Etcd in Snapshot(live) && Etcd !in Snapshot(live - {Etcd});
      live - {Etcd}
    else if Kubernetes in live then
      assert Kubernetes in Snapshot(live) && Kubernetes !in Snapshot(live - {Kubernetes});
      live - {Kubernetes}
    else
      RestoredSplit(live, image);
      var live' := Restored(live, image);
      assert forall m :: Managed(m) ==> SameAt(image, live', m) by {
        forall m | Managed(m)
          ensures SameAt(image, live', m)
        {
          SnapshotAt(live', image, m);
        }
      }
      live'
  }

  /** Otherwise there is no middle. */
  lemma NotExposed(live: Image, image: Image, live': Image)
    requires !Exposed(live, image) && Unmanaged(live') == Unmanaged(live)
    requires forall m :: Managed(m) ==> PartWay(live, image, live', m)
    ensures live' == live
  {
    forall m | Managed(m)
      ensures SameAt(live, live', m)
    {
      SnapshotAt(image, live, m);
    }
    assert Snapshot(live) == Snapshot(live');
    ImageSplit(live, live');
  }

  lemma MarkerIsNoName(meta: LastBoot)
    ensures Name(meta) != MARKER
  {
    JoinHasUnderscore(meta.deployment, meta.boot);
    assert '_' !in MARKER;
  }

  /** maybeRestore drops the marker when it returns an error, and the next boot snapshots what it finds under
      last-boot's name. That snapshot is the one an undisturbed boot would have taken, whatever the error was,
      exactly when the backup had been taken before or the restore had nothing to do. */
  lemma FailedRestoreHarmlessIff(d: Disk, deployment: string, name: string)
    requires Marked(d) && deployment != "" && name != "" && IsLatest(d.backups, deployment, name)
    requires d.lastBoot.Some? && (Name(d.lastBoot.value) in d.backups ==> d.backups[Name(d.lastBoot.value)].Folder?)
    ensures var lb := d.lastBoot.value;
            (forall d' :: MaybeRestoreOutcome(d, deployment, name, true, d', Err) ==>
               AfterCreate(d', lb).backups[Name(lb)].image == AfterCreate(d, lb).backups[Name(lb)].image)
            <==> Name(lb) in d.backups || !Exposed(d.live, d.backups[name].image)
  {
    var lb := d.lastBoot.value;
    MarkerIsNoName(lb);
    forall d' | MaybeRestoreOutcome(d, deployment, name, true, d', Err)
      ensures Name(lb) in d'.backups <==> Name(lb) in d.backups
      ensures Name(lb) in d.backups ==> d'.backups[Name(lb)] == d.backups[Name(lb)]
      ensures !Exposed(d.live, d.backups[name].image) ==> d'.live == d.live
    {
      assert Name(lb) in d.backups <==> Name(lb) in d.backups - {MARKER};
      if !Exposed(d.live, d.backups[name].image) {
        NotExposed(d.live, d.backups[name].image, d'.live);
      }
    }
    if Name(lb) !in d.backups && Exposed(d.live, d.backups[name].image) {
      var live' := Disturbed(d.live, d.backups[name].image);
      var d' := d.(live := live', backups := d.backups - {MARKER});
      assert d'.(backups := d.backups) == d.(live := live');
      assert RequestOutcome(d, deployment, name, true, d.(live := live'), Err);
      assert MaybeRestoreOutcome(d, deployment, name, true, d', Err);
    }
  }

  /** The same for a power cut inside maybeRestore after which the machine comes up in a deployment
      that has no backup, so that the marker is consumed without a restore. */
  lemma SwitchedDeploymentHarmlessIff(d: Disk, deployment: string, name: string, other: string)
    requires Marked(d) && deployment != "" && name != "" && IsLatest(d.backups, deployment, name)
    requires IsLatest(d.backups, other, "")
    requires d.lastBoot.Some? && (Name(d.lastBoot.value) in d.backups ==> d.backups[Name(d.lastBoot.value)].Folder?)
    ensures var lb := d.lastBoot.value;
            (forall d1, d2 ::
               && MaybeRestoreOutcome(d, deployment, name, false, d1, Crash) && d1.lastBoot == d.lastBoot
               && MaybeRestoreOutcome(d1, other, "", false, d2, Ok) ==>
               AfterCreate(d2, lb).backups[Name(lb)].image == AfterCreate(d, lb).backups[Name(lb)].image)
            <==> Name(lb) in d.backups || !Exposed(d.live, d.backups[name].image)
  {
    var lb := d.lastBoot.value;
    MarkerIsNoName(lb);
    forall d1, d2 | MaybeRestoreOutcome(d, deployment, name, false, d1, Crash)
        && MaybeRestoreOutcome(d1, other, "", false, d2, Ok)
      ensures Name(lb) in d2.backups <==> Name(lb) in d.backups
      ensures Name(lb) in d.backups ==> d2.backups[Name(lb)] == d.backups[Name(lb)]
      ensures !Exposed(d.live, d.backups[name].image) ==> d2.live == d.live
    {
      CutThenNoRestore(d, deployment, name, d1, other, d2);
      assert Name(lb) in d.backups <==> Name(lb) in d.backups - {MARKER};
    }
    if Name(lb) !in d.backups && Exposed(d.live, d.backups[name].image) {
      var d1 := d.(live := Disturbed(d.live, d.backups[name].image));
      assert RequestOutcome(d, deployment, name, false, d1, Crash);
      assert MaybeRestoreOutcome(d, deployment, name, false, d1, Crash);
      var d2 := d1.(backups := d.backups - {MARKER});
      assert d2.(backups := d1.backups) == d1;
      assert RequestOutcome(d1, other, "", false, d1, Ok);
      assert MaybeRestoreOutcome(d1, other, "", false, d2, Ok);
      assert AfterCreate(d2, lb).backups[Name(lb)].image == Snapshot(d2.live);
    }
  }

  /** A cut attempt, then one that restores nothing. */
  lemma CutThenNoRestore(d: Disk, deployment: string, name: string, d1: Disk, other: string, d2: Disk)
    requires Marked(d) && deployment != "" && name != "" && IsLatest(d.backups, deployment, name)
    requires MaybeRestoreOutcome(d, deployment, name, false, d1, Crash)
            && MaybeRestoreOutcome(d1, other, "", false, d2, Ok)
    ensures d2.backups in {d.backups, d.backups - {MARKER}}
    ensures !Exposed(d.live, d.backups[name].image) ==> d2.live == d.live
  {
    assert d.backups - {MARKER} - {MARKER} == d.backups - {MARKER};
    if !Exposed(d.live, d.backups[name].image) {
      forall m | Managed(m)
        ensures PartWay(d.live, d.backups[name].image, d1.live, m)
      {
        AttemptIsPartWay(d, deployment, name, name, false, d1, Crash, m);
      }
      assert Unmanaged(d1.live) == Unmanaged(d.live) by {
        RestoredSplit(d.live, d.backups[name].image);
      }
      NotExposed(d.live, d.backups[name].image, d1.live);
    }
  }
}
