/** internal/backup: snapshot, restore, listing and pruning of the backups directory. */
module Backup {
  import opened FileSystem
  import opened Names
  import opened Sorting
  import State

  type Backups = map<string, Entry>

  /** The managed members in the order Create and Restore visit them. */
  const MEMBERS: seq<Member> :=
    [Etcd, Kubernetes,
     KubeletFile(KUBELET_STATE_FILES[0]), KubeletFile(KUBELET_STATE_FILES[1]), KubeletFile(KUBELET_STATE_FILES[2])]

  lemma MembersAreManaged(m: Member)
    ensures m in MEMBERS <==> Managed(m)
  {}

  function Name(meta: LastBoot): string {
    Join(meta.deployment, meta.boot)
  }

  /** The ids without which Create refuses, and Boot does not call it. */
  predicate Nameable(meta: LastBoot) {
    meta.deployment != "" && meta.boot != ""
  }

  function TmpName(meta: LastBoot): string {
    Name(meta) + TMP_SUFFIX
  }

  // ---- Create ----

  function CopiedUpTo(live: Image, k: nat): Image
    requires k <= |MEMBERS|
  {
    map m | m in live && m in MEMBERS[..k] :: live[m]
  }

  lemma CopiedAll(live: Image)
    ensures CopiedUpTo(live, 0) == map[]
    ensures CopiedUpTo(live, |MEMBERS|) == Snapshot(live)
  {
    forall m: Member
      ensures m in MEMBERS[..|MEMBERS|] <==> Managed(m)
    {
      assert MEMBERS[..|MEMBERS|] == MEMBERS;
      MembersAreManaged(m);
    }
  }

  lemma CopiedNext(live: Image, k: nat)
    requires k < |MEMBERS|
    ensures CopiedUpTo(live, k + 1) ==
            if MEMBERS[k] in live then CopiedUpTo(live, k)[MEMBERS[k] := live[MEMBERS[k]]] else CopiedUpTo(live, k)
  {
    assert MEMBERS[..k + 1] == MEMBERS[..k] + [MEMBERS[k]];
  }

  /** The disk after a successful Create. */
  function AfterCreate(d: Disk, meta: LastBoot): Disk {
    if Name(meta) in d.backups then d
    else d.(backups := (d.backups - {TmpName(meta)})[Name(meta) := Folder(Snapshot(d.live), Some(meta), d.clock)],
            clock := d.clock + 1)
  }

  /** A Create that did not get to its rename has touched its `.tmp` entry and nothing else. */
  ghost predicate CreateUnfinished(d: Disk, meta: LastBoot, d': Disk) {
    && d' == d.(backups := d'.backups, clock := d'.clock)
    && d.clock <= d'.clock
    && d'.backups - {TmpName(meta)} == d.backups - {TmpName(meta)}
    && (Name(meta) in d.backups ==> d' == d)
  }

  ghost predicate CreateOutcome(d: Disk, meta: LastBoot, d': Disk, r: Outcome) {
    && (r.Ok? ==> Nameable(meta) && d' == AfterCreate(d, meta))
    && (r.Err? ==> CreateUnfinished(d, meta, d'))
    && (r.Crash? ==> CreateUnfinished(d, meta, d') || (Nameable(meta) && d' == AfterCreate(d, meta)))
  }

  /** os.Stat of an entry. */
  method Exists(h: Host, name: string) returns (r: Outcome, exists': bool)
    modifies h`faults
    ensures h.faults == old(h.faults) + Faults(!r.Ok?)
    ensures exists' <==> r.Ok? && name in h.backups
  {
    r := h.Answer();
    exists' := r.Ok? && name in h.backups;
  }

  /** Removes the staging directory after a failure and passes the failure on. */
  method RollbackTmp(h: Host, tmp: string) returns (r: Outcome)
    modifies h`backups, h`clock, h`faults
    ensures old(h.faults) + Faults(r.Crash?) <= h.faults
    ensures !r.Ok?
    ensures h.faults == old(h.faults) ==> tmp !in h.backups
    ensures h.backups - {tmp} == old(h.backups) - {tmp} && old(h.clock) <= h.clock
  {
    r := h.RemoveFolder(tmp);
    if r.Ok? {
      r := Err;
    }
  }

  /** copyDirIfExists and copyFileIfExists: the next member into the backup under construction. */
  method CopyIfExists(h: Host, k: nat, tmp: string) returns (r: Outcome)
    requires k < |MEMBERS|
    requires tmp in h.backups && h.backups[tmp].Folder? && h.backups[tmp].image == CopiedUpTo(h.live, k)
    modifies h`backups, h`faults
    ensures h.faults == old(h.faults) + Faults(!r.Ok?)
    ensures h.backups - {tmp} == old(h.backups) - {tmp}
    ensures r.Ok? ==> h.backups == old(h.backups)[tmp := old(h.backups)[tmp].(image := CopiedUpTo(h.live, k + 1))]
  {
    CopiedNext(h.live, k);
    r := h.Answer();
    if r.Ok? && MEMBERS[k] in h.live {
      r := h.CopyToFolder(MEMBERS[k], tmp);
    }
  }

  /** Create's copies into its staging directory. */
  method FillFolder(h: Host, tmp: string) returns (r: Outcome)
    requires tmp in h.backups && h.backups[tmp] == Folder(map[], None, h.clock)
    modifies h`backups, h`faults
    ensures h.faults == old(h.faults) + Faults(!r.Ok?)
    ensures h.backups - {tmp} == old(h.backups) - {tmp}
    ensures r.Ok? ==> tmp in h.backups && h.backups[tmp] == Folder(Snapshot(h.live), None, h.clock)
  {
    CopiedAll(h.live);
    r := CopyIfExists(h, 0, tmp);
    if r.Ok? {
      r := CopyIfExists(h, 1, tmp);
    }
    if r.Ok? {
      r := h.Answer();
    }
    var i := 0;
    while r.Ok? && i < |KUBELET_STATE_FILES|
      invariant i <= |KUBELET_STATE_FILES|
      invariant h.faults == old(h.faults) + Faults(!r.Ok?)
      invariant h.backups - {tmp} == old(h.backups) - {tmp}
      invariant r.Ok? ==> tmp in h.backups && h.backups[tmp] == Folder(CopiedUpTo(h.live, i + 2), None, h.clock)
    {
      r := CopyIfExists(h, i + 2, tmp);
      i := i + 1;
    }
  }

  /** The part of Create that fills and publishes the staging directory. */
  method FillAndPublish(h: Host, meta: LastBoot) returns (r: Outcome)
    requires Name(meta) !in h.backups && TmpName(meta) in h.backups
    requires h.backups[TmpName(meta)] == Folder(map[], None, h.clock)
    modifies h`backups, h`clock, h`faults
    ensures old(h.faults) + Faults(!r.Ok?) <= h.faults
    ensures r.Ok? ==> h.faults == old(h.faults)
    ensures old(h.clock) <= h.clock
    ensures r.Ok? ==> h.OnDisk() == AfterCreate(old(h.OnDisk()), meta)
    ensures r.Err? ==> h.backups - {TmpName(meta)} == old(h.backups) - {TmpName(meta)}
    ensures r.Err? && h.faults == old(h.faults) + 1 ==> TmpName(meta) !in h.backups
    ensures r.Crash? ==>
      || h.backups - {TmpName(meta)} == old(h.backups) - {TmpName(meta)}
      || h.OnDisk() == AfterCreate(old(h.OnDisk()), meta)
  {
    var name, tmp := Name(meta), TmpName(meta);
    ghost var outside := h.backups - {tmp};
    r := FillFolder(h, tmp);
    assert name in h.backups <==> name in outside;
    if r.Ok? {
      r := h.WriteMetaFile(tmp, meta);
      assert name in h.backups <==> name in outside;
    }
    if r.Ok? {
      r := h.RenameFolder(tmp, name);
    }
    if r.Err? {
      r := RollbackTmp(h, tmp);
    }
  }

  method Create(h: Host, meta: LastBoot) returns (r: Outcome)
    modifies h`backups, h`clock, h`faults
    ensures old(h.faults) + Faults(!r.Ok? && meta.deployment != "" && meta.boot != "") <= h.faults
    ensures r.Ok? ==> h.faults == old(h.faults)
    ensures CreateOutcome(old(h.OnDisk()), meta, h.OnDisk(), r)
    ensures meta.deployment == "" || meta.boot == "" ==> r.Err?
    ensures r.Err? && h.faults <= old(h.faults) + 1 && TmpName(meta) in h.backups ==>
              TmpName(meta) in old(h.backups)
              && Remnant(old(h.backups)[TmpName(meta)], h.backups[TmpName(meta)], old(h.clock))
  {
    if meta.deployment == "" || meta.boot == "" {
      return Err;
    }
    r := h.Answer();
    if !r.Ok? {
      return;
    }
    var name := Name(meta);
    var exists';
    r, exists' := Exists(h, name);
    if !r.Ok? || exists' {
      return;
    }
    var tmp := name + TMP_SUFFIX;
    ghost var outside := h.backups - {tmp};
    r := h.RemoveFolder(tmp);
    assert name in h.backups <==> name in outside;
    if r.Ok? {
      r := h.MakeFolder(tmp);
    }
    if r.Ok? {
      assert h.backups - {tmp} == outside;
      assert name in h.backups <==> name in outside;
      r := FillAndPublish(h, meta);
    }
  }

  /** An entry without readable metadata. */
  predicate Headless(b: Backups, n: string) {
    n in b && b[n].Folder? && b[n].meta.None?
  }

  method ReadMeta(h: Host, name: string) returns (r: Outcome, meta: LastBoot)
    modifies h`faults
    ensures old(h.faults) + Faults(r.Crash?) <= h.faults
    ensures r.Ok? ==> h.faults == old(h.faults)
    ensures !r.Ok? && name in h.backups && h.backups[name].Folder? && !Headless(h.backups, name) ==>
              old(h.faults) < h.faults
    ensures r.Ok? ==> name in h.backups && h.backups[name].Folder? && h.backups[name].meta == Some(meta)
  {
    meta := LastBoot("", "", "");
    r := h.Answer();
    if r.Ok? {
      if name in h.backups && h.backups[name].Folder? && h.backups[name].meta.Some? {
        meta := h.backups[name].meta.value;
      } else {
        r := Err;
      }
    }
  }

  // ---- Restore ----

  /** Live data with the first k members taken from a backup, absences included. */
  function RestoredUpTo(live: Image, image: Image, k: nat): Image
    requires k <= |MEMBERS|
  {
    map m | m in live.Keys + image.Keys && (if m in MEMBERS[..k] then m in image else m in live)
      :: if m in MEMBERS[..k] then image[m] else live[m]
  }

  /** The `.restoring` siblings once the first k members went through theirs. */
  function StagedUpTo(staged: Image, image: Image, k: nat): Image
    requires k <= |MEMBERS|
  {
    map m | m in staged && !(m in image && m in MEMBERS[..k]) :: staged[m]
  }

  function Restored(live: Image, image: Image): Image {
    RestoredUpTo(live, image, |MEMBERS|)
  }

  lemma RestoredNext(live: Image, image: Image, k: nat)
    requires k < |MEMBERS|
    ensures var m := MEMBERS[k];
            RestoredUpTo(live, image, k + 1) ==
            if m in image then RestoredUpTo(live, image, k)[m := image[m]] else RestoredUpTo(live, image, k) - {m}
  {
    assert MEMBERS[..k + 1] == MEMBERS[..k] + [MEMBERS[k]];
  }

  /** Every member is still the old one or already the backup's. */
  lemma RestoredUpToAt(live: Image, image: Image, k: nat, m: Member)
    requires k <= |MEMBERS|
    ensures SameAt(if m in MEMBERS[..k] then image else live, RestoredUpTo(live, image, k), m)
  {}

  lemma OffMember(live: Image, live': Image, m: Member, n: Member)
    requires live - {m} == live' - {m} && n != m
    ensures SameAt(live, live', n)
  {
    assert n in live <==> n in live - {m};
    assert n in live' <==> n in live' - {m};
    if n in live {
      assert (live - {m})[n] == live[n] && (live' - {m})[n] == live'[n];
    }
  }

  lemma StagedNext(staged: Image, image: Image, k: nat)
    requires k < |MEMBERS|
    ensures var m := MEMBERS[k];
            StagedUpTo(staged, image, k + 1) ==
            if m in image then StagedUpTo(staged, image, k) - {m} else StagedUpTo(staged, image, k)
  {}

  /** The disk after a successful Restore. */
  function AfterRestore(d: Disk, image: Image): Disk {
    d.(live := Restored(d.live, image), staged := StagedUpTo(d.staged, image, |MEMBERS|))
  }

  /** A member while it is being restored: still as it was, already as the backup has it, or a tree on its way out.
      Never half written. */
  ghost predicate PartWay(live: Image, image: Image, live': Image, m: Member) {
    SameAt(live, live', m) || SameAt(image, live', m) || (m.IsTree() && ShrunkAt(live, live', m))
  }

  /** A Restore of this backup that stopped somewhere. */
  ghost predicate RestoreUnfinished(d: Disk, name: string, d': Disk) {
    && d' == d.(live := d'.live, staged := d'.staged)
    && Unmanaged(d'.live) == Unmanaged(d.live)
    && (if name in d.backups && d.backups[name].Folder? then
          forall m :: Managed(m) ==> PartWay(d.live, d.backups[name].image, d'.live, m)
        else d' == d)
  }

  /** A tree that gave way to a backup's did so once the copy was staged whole. */
  ghost predicate StagedFirst(live: Image, image: Image, live': Image, stagedAt: map<Member, Image>, m: Member) {
    m.IsTree() && m in image && !SameAt(live, live', m) ==>
      m in stagedAt && m in stagedAt[m] && stagedAt[m][m] == image[m]
  }

  /** No half-made copy lies in the staging place of a member: only what was there before, or the whole copy. */
  ghost predicate NoHalfCopy(staged: Image, image: Image, staged': Image, m: Member) {
    m in staged' ==> (m in staged && staged'[m].Items <= staged[m].Items) || SameAt(image, staged', m)
  }

  /** The five members by name, in the order of a restore. */
  const RESTORE_ORDER: seq<Member> :=
    [Etcd, Kubernetes, KubeletFile("config.yaml"), KubeletFile("instance-config.yaml"),
     KubeletFile("kubeadm-flags.env")]

  /** A member is touched only after those before it were restored. */
  ghost predicate InOrder(live: Image, image: Image, live': Image) {
    forall i, j :: 0 <= i < j < |RESTORE_ORDER| && !SameAt(live, live', RESTORE_ORDER[j]) ==>
        SameAt(image, live', RESTORE_ORDER[i])
  }

  lemma ManagedWritesKeepUnmanaged(live: Image, live': Image, m: Member)
    requires Managed(m) && live - {m} == live' - {m}
    ensures Unmanaged(live) == Unmanaged(live')
  {
    forall k | !Managed(k)
      ensures k in live <==> k in live'
      ensures k in live ==> live[k] == live'[k]
    {
      assert k in live <==> k in live - {m};
      assert k in live' <==> k in live' - {m};
      if k in live {
        assert (live - {m})[k] == live[k] && (live' - {m})[k] == live'[k];
      }
    }
  }

  /** restoreDir from its staging path on: copy, remove, rename. */
  method ReplaceTree(h: Host, image: Image, m: Member) returns (r: Outcome)
    requires m.IsTree() && m in image
    modifies h`live, h`staged, h`stagedAt, h`faults
    ensures old(h.faults) + Faults(!r.Ok?) <= h.faults
    ensures r.Ok? ==> h.faults == old(h.faults)
    ensures h.live - {m} == old(h.live) - {m}
    ensures h.staged - {m} == old(h.staged) - {m} && h.stagedAt - {m} == old(h.stagedAt) - {m}
    ensures StagedFirst(old(h.live), image, h.live, h.stagedAt, m)
    ensures r.Err? && h.faults == old(h.faults) + 1 ==> NoHalfCopy(old(h.staged), image, h.staged, m)
    ensures PartWay(old(h.live), image, h.live, m)
    ensures r.Ok? ==> h.live == old(h.live)[m := image[m]] && h.staged == old(h.staged) - {m}
  {
    r := h.RemoveStaged(m);
    if !r.Ok? {
      return;
    }
    r := h.CopyToStaged(image[m], m);
    if r.Ok? {
      r := h.RemoveLive(m);
    }
    if r.Err? {
      var cleanup := h.RemoveStaged(m);
      if cleanup.Crash? {
        r := Crash;
      }
    }
    if r.Ok? {
      r := h.RenameStaged(m);
    }
  }

  /** restoreDir: one tree, replaced through its `.restoring` sibling, or wiped when the backup lacks it. */
  method RestoreDir(h: Host, image: Image, m: Member) returns (r: Outcome)
    requires m.IsTree()
    modifies h`live, h`staged, h`stagedAt, h`faults
    ensures old(h.faults) + Faults(!r.Ok?) <= h.faults
    ensures r.Ok? ==> h.faults == old(h.faults)
    ensures h.live - {m} == old(h.live) - {m}
    ensures h.staged - {m} == old(h.staged) - {m} && h.stagedAt - {m} == old(h.stagedAt) - {m}
    ensures StagedFirst(old(h.live), image, h.live, h.stagedAt, m)
    ensures r.Err? && h.faults == old(h.faults) + 1 ==> NoHalfCopy(old(h.staged), image, h.staged, m)
    ensures PartWay(old(h.live), image, h.live, m)
    ensures r.Ok? ==> h.live == if m in image then old(h.live)[m := image[m]] else old(h.live) - {m}
    ensures r.Ok? ==> h.staged == if m in image then old(h.staged) - {m} else old(h.staged)
  {
    r := h.Answer();
    if !r.Ok? {
      return;
    }
    if m !in image {
      r := h.RemoveLive(m);
      return;
    }
    r := h.Answer();
    if !r.Ok? {
      return;
    }
    r := ReplaceTree(h, image, m);
  }

  /** replaceFile, and the removal that Restore does when the backup lacks the file. */
  method RestoreFile(h: Host, image: Image, m: Member) returns (r: Outcome)
    requires !m.IsTree()
    modifies h`live, h`staged, h`faults
    ensures old(h.faults) + Faults(!r.Ok?) <= h.faults
    ensures r.Ok? ==> h.faults == old(h.faults)
    ensures h.live - {m} == old(h.live) - {m}
    ensures h.staged - {m} == old(h.staged) - {m}
    ensures r.Err? && h.faults == old(h.faults) + 1 ==> NoHalfCopy(old(h.staged), image, h.staged, m)
    ensures PartWay(old(h.live), image, h.live, m)
    ensures r.Ok? ==> h.live == if m in image then old(h.live)[m := image[m]] else old(h.live) - {m}
    ensures r.Ok? ==> h.staged == if m in image then old(h.staged) - {m} else old(h.staged)
  {
    r := h.Answer();
    if !r.Ok? {
      return;
    }
    if m !in image {
      r := h.UnlinkLive(m);
      return;
    }
    r := h.Answer();
    if r.Ok? {
      r := h.RemoveStaged(m);
    }
    if !r.Ok? {
      return;
    }
    r := h.CopyToStaged(image[m], m);
    if r.Err? {
      var cleanup := h.RemoveStaged(m);
      if cleanup.Crash? {
        r := Crash;
      }
    }
    if r.Ok? {
      r := h.RenameStaged(m);
    }
  }

  lemma StagedFirstStays(live: Image, image: Image, before: Image, after: Image, at: map<Member, Image>,
                         at': map<Member, Image>, m: Member)
    requires forall n :: StagedFirst(live, image, before, at, n)
    requires SameAt(live, before, m) && StagedFirst(before, image, after, at', m)
    requires before - {m} == after - {m} && at - {m} == at' - {m}
    ensures forall n :: StagedFirst(live, image, after, at', n)
  {
    forall n
      ensures StagedFirst(live, image, after, at', n)
    {
      if n != m {
        OffMember(before, after, m, n);
        assert StagedFirst(live, image, before, at, n);
        assert n in at ==> n in at - {m} && (at - {m})[n] == at[n];
        assert n in at' - {m} ==> (at' - {m})[n] == at'[n];
      }
    }
  }

  lemma NoHalfCopyAnywhere(staged: Image, image: Image, k: nat, before: Image, after: Image, m: Member)
    requires k <= |MEMBERS| && before == StagedUpTo(staged, image, k)
    requires NoHalfCopy(before, image, after, m) && before - {m} == after - {m}
    ensures forall n :: NoHalfCopy(staged, image, after, n)
  {
    forall n
      ensures NoHalfCopy(staged, image, after, n)
    {
      if n != m {
        OffMember(before, after, m, n);
      }
    }
  }

  lemma MembersInOrder(live: Image, image: Image, k: nat, live': Image)
    requires k < |MEMBERS| && live' - {MEMBERS[k]} == RestoredUpTo(live, image, k) - {MEMBERS[k]}
    ensures InOrder(live, image, live')
  {
    var before := RestoredUpTo(live, image, k);
    assert MEMBERS == RESTORE_ORDER;
    assert forall i, j :: 0 <= i < j < |MEMBERS| ==> MEMBERS[i] != MEMBERS[j];
    forall m | Managed(m) && m != MEMBERS[k]
      ensures SameAt(if m in MEMBERS[..k] then image else live, live', m)
    {
      RestoredUpToAt(live, image, k, m);
      OffMember(before, live', MEMBERS[k], m);
    }
    forall i, j | 0 <= i < j < |MEMBERS|
      ensures SameAt(live, live', MEMBERS[j]) || SameAt(image, live', MEMBERS[i])
    {
      MembersAreManaged(MEMBERS[i]);
      MembersAreManaged(MEMBERS[j]);
      if k < j {
        assert MEMBERS[j] !in MEMBERS[..k];
      } else {
        assert MEMBERS[i] in MEMBERS[..k];
      }
    }
  }

  /** The next member on its way from the backup to the live data. */
  method RestoreMember(h: Host, image: Image, k: nat, ghost live: Image, ghost staged: Image) returns (r: Outcome)
    requires k < |MEMBERS|
    requires h.live == RestoredUpTo(live, image, k) && h.staged == StagedUpTo(staged, image, k)
    requires forall n :: StagedFirst(live, image, h.live, h.stagedAt, n)
    modifies h`live, h`staged, h`stagedAt, h`faults
    ensures old(h.faults) + Faults(!r.Ok?) <= h.faults
    ensures r.Ok? ==> h.faults == old(h.faults)
    ensures Unmanaged(h.live) == old(Unmanaged(h.live))
    ensures forall n :: Managed(n) ==> PartWay(live, image, h.live, n)
    ensures forall n :: StagedFirst(live, image, h.live, h.stagedAt, n)
    ensures InOrder(live, image, h.live)
    ensures r.Err? && h.faults == old(h.faults) + 1 ==> forall n :: NoHalfCopy(staged, image, h.staged, n)
    ensures r.Ok? ==> h.live == RestoredUpTo(live, image, k + 1) && h.staged == StagedUpTo(staged, image, k + 1)
  {
    var m := MEMBERS[k];
    if m.IsTree() {
      r := RestoreDir(h, image, m);
    } else {
      r := RestoreFile(h, image, m);
    }
    assert Managed(m) by {
      MembersAreManaged(m);
    }
    ManagedWritesKeepUnmanaged(old(h.live), h.live, m);
    forall n | Managed(n)
      ensures PartWay(live, image, h.live, n)
    {
      RestoredUpToAt(live, image, k, n);
      if n != m {
        OffMember(old(h.live), h.live, m, n);
      }
    }
    RestoredUpToAt(live, image, k, m);
    StagedFirstStays(live, image, old(h.live), h.live, old(h.stagedAt), h.stagedAt, m);
    if NoHalfCopy(old(h.staged), image, h.staged, m) {
      NoHalfCopyAnywhere(staged, image, k, old(h.staged), h.staged, m);
    }
    MembersInOrder(live, image, k, h.live);
    RestoredNext(live, image, k);
    StagedNext(staged, image, k);
  }

  /** The two trees. */
  method RestoreTrees(h: Host, image: Image, ghost live: Image, ghost staged: Image) returns (r: Outcome)
    requires h.live == RestoredUpTo(live, image, 0) && h.staged == StagedUpTo(staged, image, 0)
    requires forall m :: StagedFirst(live, image, h.live, h.stagedAt, m)
    modifies h`live, h`staged, h`stagedAt, h`faults
    ensures old(h.faults) + Faults(!r.Ok?) <= h.faults
    ensures r.Ok? ==> h.faults == old(h.faults)
    ensures Unmanaged(h.live) == old(Unmanaged(h.live))
    ensures forall m :: Managed(m) ==> PartWay(live, image, h.live, m)
    ensures forall m :: StagedFirst(live, image, h.live, h.stagedAt, m)
    ensures InOrder(live, image, h.live)
    ensures r.Err? && h.faults == old(h.faults) + 1 ==> forall m :: NoHalfCopy(staged, image, h.staged, m)
    ensures r.Ok? ==> h.live == RestoredUpTo(live, image, 2) && h.staged == StagedUpTo(staged, image, 2)
  {
    hide RestoredUpTo, StagedUpTo, PartWay, Unmanaged, Managed, StagedFirst, NoHalfCopy, InOrder;
    r := RestoreMember(h, image, 0, live, staged);
    if r.Ok? {
      r := RestoreMember(h, image, 1, live, staged);
    }
  }

  /** Restore once the backup has been found: the two trees, then the kubelet files. */
  method RestoreImage(h: Host, image: Image) returns (r: Outcome)
    modifies h`live, h`staged, h`stagedAt, h`faults
    ensures old(h.faults) + Faults(!r.Ok?) <= h.faults
    ensures r.Ok? ==> h.faults == old(h.faults)
    ensures Unmanaged(h.live) == old(Unmanaged(h.live))
    ensures forall m :: Managed(m) ==> PartWay(old(h.live), image, h.live, m)
    ensures forall m :: StagedFirst(old(h.live), image, h.live, h.stagedAt, m)
    ensures InOrder(old(h.live), image, h.live)
    ensures r.Err? && h.faults == old(h.faults) + 1 ==> forall m :: NoHalfCopy(old(h.staged), image, h.staged, m)
    ensures r.Ok? ==> h.live == Restored(old(h.live), image)
    ensures r.Ok? ==> h.staged == StagedUpTo(old(h.staged), image, |MEMBERS|)
  {
    ghost var live, staged := h.live, h.staged;
    assert h.live == RestoredUpTo(live, image, 0) && h.staged == StagedUpTo(staged, image, 0);
    hide RestoredUpTo, StagedUpTo, PartWay, Unmanaged, Managed, StagedFirst, InOrder;
    r := RestoreTrees(h, image, live, staged);
    if r.Ok? {
      r := h.Answer();
    }
    var i := 0;
    while r.Ok? && i < |KUBELET_STATE_FILES|
      invariant i <= |KUBELET_STATE_FILES|
      invariant old(h.faults) + Faults(!r.Ok?) <= h.faults
      invariant r.Ok? ==> h.faults == old(h.faults)
      invariant Unmanaged(h.live) == Unmanaged(live)
      invariant forall m :: Managed(m) ==> PartWay(live, image, h.live, m)
      invariant forall m :: StagedFirst(live, image, h.live, h.stagedAt, m)
      invariant InOrder(live, image, h.live)
      invariant r.Err? && h.faults == old(h.faults) + 1 ==> forall m :: NoHalfCopy(staged, image, h.staged, m)
      invariant r.Ok? ==> h.live == RestoredUpTo(live, image, i + 2) && h.staged == StagedUpTo(staged, image, i + 2)
    {
      r := RestoreMember(h, image, i + 2, live, staged);
      i := i + 1;
    }
  }

  method Restore(h: Host, name: string) returns (r: Outcome)
    modifies h`live, h`staged, h`stagedAt, h`faults
    ensures old(h.faults) + Faults(!r.Ok? && name in h.backups && h.backups[name].Folder?) <= h.faults
    ensures r.Ok? ==> h.faults == old(h.faults)
    ensures r.Ok? ==> name in h.backups && h.backups[name].Folder?
    ensures r.Ok? ==> h.OnDisk() == AfterRestore(old(h.OnDisk()), h.backups[name].image)
    ensures RestoreUnfinished(old(h.OnDisk()), name, h.OnDisk())
    ensures name in h.backups && h.backups[name].Folder? ==> InOrder(old(h.live), h.backups[name].image, h.live)
    ensures name in h.backups && h.backups[name].Folder? ==>
              forall m :: StagedFirst(old(h.live), h.backups[name].image, h.live, h.stagedAt, m)
    ensures r.Err? && h.faults == old(h.faults) + 1 && name in h.backups && h.backups[name].Folder? ==>
              forall m :: NoHalfCopy(old(h.staged), h.backups[name].image, h.staged, m)
  {
    r := h.Answer();
    if !r.Ok? {
      return;
    }
    if name !in h.backups || !h.backups[name].Folder? {
      return Err;
    }
    r := RestoreImage(h, h.backups[name].image);
  }

  // ---- List and LatestForDeployment ----

  /** The entries List reports. */
  predicate Listed(b: Backups, n: string) {
    && n in b && b[n].Folder?
    && !HasSuffix(n, TMP_SUFFIX) && !HasSuffix(n, RESTORING_SUFFIX)
    && '_' in n
  }

  method List(h: Host) returns (r: Outcome, out: seq<string>)
    modifies h`faults
    ensures h.faults == old(h.faults) + Faults(!r.Ok?)
    ensures r.Ok? ==> forall n :: n in out <==> Listed(h.backups, n)
    ensures r.Ok? ==> forall n :: n in out ==> !HasSuffix(n, ".tmp") && !HasSuffix(n, ".restoring")
    ensures r.Ok? ==> forall i, j :: 0 <= i < j < |out| ==> out[i] != out[j]
  {
    out := [];
    var entries;
    r, entries := h.ReadDir();
    if !r.Ok? {
      return;
    }
    for i := 0 to |entries|
      invariant forall n :: n in out <==> n in entries[..i] && Listed(h.backups, n)
      invariant forall j, k :: 0 <= j < k < |out| ==> out[j] != out[k]
    {
      var n := entries[i];
      assert n in entries && n !in entries[..i];
      if !h.backups[n].Folder? {
        continue;
      }
      if HasSuffix(n, TMP_SUFFIX) || HasSuffix(n, RESTORING_SUFFIX) {
        continue;
      }
      if '_' !in n {
        continue;
      }
      out := out + [n];
    }
  }

  /** A directory entry with its modification time. */
  datatype Stamped = Stamped(name: string, mtime: nat)

  /** ModTime().After: newer entries sort first. */
  const NEWER: (Stamped, Stamped) -> bool := (a: Stamped, b: Stamped) => a.mtime > b.mtime

  lemma NewerIsOrder()
    ensures WeakOrder(NEWER)
  {}

  predicate Candidate(b: Backups, d: string, n: string) {
    Listed(b, n) && HasPrefix(n, d + "_")
  }

  ghost predicate HasCandidate(b: Backups, d: string) {
    exists n :: n in b && Candidate(b, d, n)
  }

  /** What LatestForDeployment answers: a newest candidate, or "" when there is none. */
  ghost predicate IsLatest(b: Backups, d: string, n: string) {
    if n == "" then forall k :: k in b ==> !Candidate(b, d, k)
    else Candidate(b, d, n) && forall k :: k in b && Candidate(b, d, k) ==> b[k].mtime <= b[n].mtime
  }

  method LatestForDeployment(h: Host, deployment: string) returns (r: Outcome, name: string)
    modifies h`faults
    ensures h.faults == old(h.faults) + Faults(!r.Ok?)
    ensures r.Ok? ==> IsLatest(h.backups, deployment, name)
  {
    name := "";
    var names;
    r, names := List(h);
    if !r.Ok? {
      return;
    }
    var prefix := deployment + "_";
    var candidates: seq<Stamped> := [];
    for i := 0 to |names|
      invariant r.Ok? && h.faults == old(h.faults)
      invariant forall c :: c in candidates ==>
              Candidate(h.backups, deployment, c.name) && c.mtime == h.backups[c.name].mtime
      invariant forall n :: n in names[..i] && Candidate(h.backups, deployment, n) ==>
              Stamped(n, h.backups[n].mtime) in candidates
    {
      assert names[i] in names;
      if !HasPrefix(names[i], prefix) {
        continue;
      }
      r := h.Answer();
      if !r.Ok? {
        return;
      }
      candidates := candidates + [Stamped(names[i], h.backups[names[i]].mtime)];
    }
    assert names[..|names|] == names;
    if |candidates| == 0 {
      return;
    }
    var sorted := Sort(NEWER, candidates);
    NewerIsOrder();
    SortSorts(NEWER, candidates);
    SortKeepsElements(NEWER, candidates);
    name := sorted[0].name;
    assert sorted[0] in candidates;
    forall k | k in h.backups && Candidate(h.backups, deployment, k)
      ensures h.backups[k].mtime <= h.backups[name].mtime
    {
      var c := Stamped(k, h.backups[k].mtime);
      assert k in names && c in candidates && c in sorted;
      var i :| 0 <= i < |sorted| && sorted[i] == c;
      assert i > 0 ==> !NEWER(sorted[i], sorted[0]);
    }
  }

  // ---- Prune ----

  function Elements(names: seq<string>): set<string> {
    set n | n in names
  }

  function Others(group: seq<string>, kept: string): set<string> {
    Elements(group) - {kept}
  }

  function UnknownOf(names: seq<string>, known: set<string>): set<string> {
    set n | n in names && Before(n) !in known
  }

  /** What Prune removes once it has settled which entry heads each known deployment's group. */
  predicate Doomed(b: Backups, known: set<string>, head: map<string, string>, n: string) {
    Listed(b, n) && (Before(n) !in known || (Before(n) in head && n != head[Before(n)]))
  }

  ghost function DoomedSet(b: Backups, known: set<string>, head: map<string, string>): set<string> {
    set n | n in b && Doomed(b, known, head, n)
  }

  ghost function PrunedBy(b: Backups, known: set<string>, head: map<string, string>): Backups {
    b - DoomedSet(b, known, head)
  }

  /** Every head is a newest listed entry of its own, known deployment. */
  ghost predicate Chooses(b: Backups, known: set<string>, head: map<string, string>) {
    forall d :: d in head ==>
      && d in known && Listed(b, head[d]) && Before(head[d]) == d
      && forall k :: k in b && Listed(b, k) && Before(k) == d ==> b[k].mtime <= b[head[d]].mtime
  }

  /** ... and every known deployment with a listed entry has a head. */
  ghost predicate ChoosesAll(b: Backups, known: set<string>, head: map<string, string>) {
    && Chooses(b, known, head)
    && forall n :: n in b && Listed(b, n) && Before(n) in known ==> Before(n) in head
  }

  /** Some of the victims are gone, one of them perhaps only in part. */
  ghost predicate Thinned(b: Backups, b': Backups, victims: set<string>, torn: Option<string>, now: nat) {
    && (forall n :: n in b && n !in victims ==> n in b' && b'[n] == b[n])
    && (forall n :: n in b' ==>
        n in b && (b'[n] == b[n] || (torn == Some(n) && n in victims && Remnant(b[n], b'[n], now))))
  }

  /** What a Prune makes of the directory, ended early or not. */
  ghost predicate PruneResult(
    b: Backups, known: set<string>, head: map<string, string>, torn: Option<string>, b': Backups, now: nat, r: Outcome)
  {
    && Chooses(b, known, head)
    && (r.Ok? ==> torn.None? && ChoosesAll(b, known, head) && b' == PrunedBy(b, known, head))
    && Thinned(b, b', DoomedSet(b, known, head), torn, now)
  }

  ghost predicate PruneOutcome(
    d: Disk, known: set<string>, head: map<string, string>, torn: Option<string>, d': Disk, r: Outcome)
  {
    && d' == d.(backups := d'.backups, clock := d'.clock)
    && d'.clock == d.clock + (if torn.Some? then 1 else 0)
    && PruneResult(d.backups, known, head, torn, d'.backups, d.clock, r)
  }

  lemma ThinnedAfterRemoval(b: Backups, gone: set<string>, b': Backups, victims: set<string>, all: set<string>,
                            torn: Option<string>, now: nat)
    requires gone + victims <= all
    requires Thinned(b - gone, b', victims, torn, now)
    ensures Thinned(b, b', all, torn, now)
  {}

  lemma RemovalThins(b: Backups, gone: set<string>, now: nat)
    ensures Thinned(b, b - gone, gone, None, now)
  {}

  /** One os.RemoveAll inside Prune. */
  method RemoveVictim(h: Host, n: string) returns (r: Outcome, ghost torn: Option<string>)
    modifies h`backups, h`clock, h`faults
    ensures h.faults == old(h.faults) + Faults(!r.Ok?)
    ensures r.Ok? ==> h.backups == old(h.backups) - {n} && torn.None?
    ensures h.clock == old(h.clock) + (if torn.Some? then 1 else 0)
    ensures Thinned(old(h.backups), h.backups, {n}, torn, old(h.clock))
  {
    ghost var b := h.backups;
    r := h.RemoveFolder(n);
    torn := if h.clock == old(h.clock) then None else Some(n);
    forall k | k != n
      ensures k in b <==> k in h.backups
      ensures k in b ==> h.backups[k] == b[k]
    {
      assert k in b <==> k in b - {n};
      assert k in h.backups <==> k in h.backups - {n};
      if k in b {
        assert (b - {n})[k] == b[k] && (h.backups - {n})[k] == h.backups[k];
      }
    }
  }

  /** Removes a list of entries until one removal fails. */
  method RemoveAll(h: Host, victims: seq<string>) returns (r: Outcome, ghost torn: Option<string>)
    modifies h`backups, h`clock, h`faults
    ensures h.faults == old(h.faults) + Faults(!r.Ok?)
    ensures r.Ok? ==> torn.None? && h.backups == old(h.backups) - Elements(victims)
    ensures h.clock == old(h.clock) + (if torn.Some? then 1 else 0)
    ensures Thinned(old(h.backups), h.backups, Elements(victims), torn, old(h.clock))
  {
    r, torn := Ok, None;
    for i := 0 to |victims|
      invariant r.Ok? && torn.None? && h.clock == old(h.clock) && h.faults == old(h.faults)
      invariant h.backups == old(h.backups) - Elements(victims[..i])
    {
      r, torn := RemoveVictim(h, victims[i]);
      if !r.Ok? {
        ThinnedAfterRemoval(old(h.backups), Elements(victims[..i]), h.backups, {victims[i]}, Elements(victims),
                            torn, old(h.clock));
        return;
      }
      assert Elements(victims[..i + 1]) == Elements(victims[..i]) + {victims[i]};
    }
    assert victims[..|victims|] == victims;
  }

  ghost predicate Group(b: Backups, group: seq<string>) {
    && group != []
    && (forall n :: n in group ==> n in b && b[n].Folder?)
    && forall i, j :: 0 <= i < j < |group| ==> group[i] != group[j]
  }

  /** Prune's second loop body: all of a deployment's backups go, except one with the newest time stamp. */
  method PruneGroup(h: Host, group: seq<string>) returns (r: Outcome, kept: string, ghost torn: Option<string>)
    requires Group(h.backups, group)
    modifies h`backups, h`clock, h`faults
    ensures h.faults == old(h.faults) + Faults(!r.Ok?)
    ensures kept in group && forall n :: n in group ==> old(h.backups)[n].mtime <= old(h.backups)[kept].mtime
    ensures r.Ok? ==> torn.None? && h.backups == old(h.backups) - Others(group, kept)
    ensures h.clock == old(h.clock) + (if torn.Some? then 1 else 0)
    ensures Thinned(old(h.backups), h.backups, Others(group, kept), torn, old(h.clock))
  {
    if |group| <= 1 {
      return Ok, group[0], None;
    }
    var stamped := Stamps(group, h.backups);
    var sorted := Sort(NEWER, stamped);
    kept := sorted[0].name;
    var tail := NamesOf(sorted[1..]);
    HeadAndTail(group, h.backups);
    r, torn := RemoveAll(h, tail);
    assert Elements(tail) == Others(group, kept);
  }

  function Stamps(group: seq<string>, b: Backups): (stamped: seq<Stamped>)
    requires forall n :: n in group ==> n in b && b[n].Folder?
    ensures |stamped| == |group|
    ensures forall i :: 0 <= i < |group| ==> stamped[i] == Stamped(group[i], b[group[i]].mtime)
  {
    seq(|group|, i requires 0 <= i < |group| => assert group[i] in group; Stamped(group[i], b[group[i]].mtime))
  }

  function NamesOf(stamped: seq<Stamped>): (names: seq<string>)
    ensures |names| == |stamped|
    ensures forall i :: 0 <= i < |names| ==> names[i] == stamped[i].name
  {
    seq(|stamped|, i requires 0 <= i < |stamped| => stamped[i].name)
  }

  /** The sorted group is its head, which is newest, followed by all the others. */
  lemma HeadAndTail(group: seq<string>, b: Backups)
    requires Group(b, group)
    ensures var sorted := Sort(NEWER, Stamps(group, b));
            var kept, tail := sorted[0].name, NamesOf(sorted[1..]);
            && kept in group
            && (forall n :: n in group ==> b[n].mtime <= b[kept].mtime)
            && (forall n :: n in tail <==> n in group && n != kept)
  {
    var stamped := Stamps(group, b);
    var sorted := Sort(NEWER, stamped);
    var kept, tail := sorted[0].name, NamesOf(sorted[1..]);
    NewerIsOrder();
    SortSorts(NEWER, stamped);
    SortKeepsElements(NEWER, stamped);
    assert sorted[0] in stamped;
    forall n | n in group
      ensures b[n].mtime <= b[kept].mtime
      ensures n != kept ==> n in tail
    {
      var i :| 0 <= i < |group| && group[i] == n;
      assert stamped[i] in sorted;
      var j :| 0 <= j < |sorted| && sorted[j] == stamped[i];
      if j > 0 {
        assert !NEWER(sorted[j], sorted[0]);
        assert tail[j - 1] == n;
      }
    }
    forall n | n in tail
      ensures n in group && n != kept
    {
      var i :| 0 <= i < |tail| && tail[i] == n;
      assert sorted[i + 1] in stamped;
      assert sorted[0] != sorted[i + 1];
    }
  }

  /** Prune's grouping of the listed names of known deployments, after the first `k` of them. */
  ghost predicate Grouped(names: seq<string>, known: set<string>, groups: map<string, seq<string>>) {
    && (forall d :: d in groups ==>
          && d in known && groups[d] != []
          && (forall n :: n in groups[d] <==> n in names && Before(n) == d)
          && forall i, j :: 0 <= i < j < |groups[d]| ==> groups[d][i] != groups[d][j])
    && forall n :: n in names && Before(n) in known ==> Before(n) in groups
  }

  lemma GroupedNext(names: seq<string>, n: string, known: set<string>, groups: map<string, seq<string>>)
    requires Grouped(names, known, groups)
    requires n !in names
    ensures Before(n) in known ==>
              Grouped(names + [n], known,
                      groups[Before(n) := (if Before(n) in groups then groups[Before(n)] else []) + [n]])
    ensures Before(n) !in known ==> Grouped(names + [n], known, groups)
  {}

  /** Prune's first loop: listed names of unknown deployments go, the others are sorted into groups. */
  method DropUnknown(h: Host, names: seq<string>, known: set<string>)
    returns (r: Outcome, byDeploy: map<string, seq<string>>, ghost torn: Option<string>)
    requires forall n :: n in names <==> Listed(h.backups, n)
    requires forall i, j :: 0 <= i < j < |names| ==> names[i] != names[j]
    modifies h`backups, h`clock, h`faults
    ensures h.faults == old(h.faults) + Faults(!r.Ok?)
    ensures r.Ok? ==> torn.None? && Grouped(names, known, byDeploy)
    ensures r.Ok? ==> h.backups == PrunedBy(old(h.backups), known, map[])
    ensures h.clock == old(h.clock) + (if torn.Some? then 1 else 0)
    ensures Thinned(old(h.backups), h.backups, DoomedSet(old(h.backups), known, map[]), torn, old(h.clock))
  {
    r, byDeploy, torn := Ok, map[], None;
    ghost var b := h.backups;
    ghost var doomed := DoomedSet(b, known, map[]);
    for i := 0 to |names|
      invariant r.Ok? && torn.None? && h.clock == old(h.clock) && h.faults == old(h.faults)
      invariant h.backups == b - UnknownOf(names[..i], known)
      invariant Grouped(names[..i], known, byDeploy)
    {
      var n := names[i];
      assert n in names && n !in names[..i];
      assert names[..i + 1] == names[..i] + [n];
      GroupedNext(names[..i], n, known, byDeploy);
      var deploy := Before(n);
      ghost var gone := UnknownOf(names[..i], known);
      if deploy !in known {
        r, torn := RemoveVictim(h, n);
        if !r.Ok? {
          forall k | k in gone + {n}
            ensures k in doomed
          {
            assert k in names;
          }
          ThinnedAfterRemoval(b, gone, h.backups, {n}, doomed, torn, old(h.clock));
          return;
        }
        assert UnknownOf(names[..i + 1], known) == gone + {n};
      } else {
        assert UnknownOf(names[..i + 1], known) == gone;
        byDeploy := byDeploy[deploy := (if deploy in byDeploy then byDeploy[deploy] else []) + [n]];
      }
    }
    assert names[..|names|] == names;
  }

  /** Groups of directory entries that share none. */
  ghost predicate Partition(b: Backups, groups: map<string, seq<string>>) {
    && (forall d :: d in groups ==> Group(b, groups[d]))
    && forall d, d', n :: d in groups && d' in groups && n in groups[d] && n in groups[d'] ==> d == d'
  }

  ghost predicate Heads(b: Backups, groups: map<string, seq<string>>, head: map<string, string>)
    requires Partition(b, groups)
  {
    forall d :: d in head ==>
      && d in groups && head[d] in groups[d]
      && forall n :: n in groups[d] ==> b[n].mtime <= b[head[d]].mtime
  }

  /** Everything but the heads, over the groups that have one. */
  ghost function Losers(groups: map<string, seq<string>>, head: map<string, string>): set<string> {
    set d, n | d in head && d in groups && n in groups[d] && n != head[d] :: n
  }

  /** Settling one more group touches that group only, and the group was still complete. */
  lemma LosersNext(b: Backups, groups: map<string, seq<string>>, head: map<string, string>, d: string, kept: string)
    requires Partition(b, groups) && d in groups && d !in head
    ensures Losers(groups, head[d := kept]) == Losers(groups, head) + Others(groups[d], kept)
    ensures b - Losers(groups, head[d := kept]) == (b - Losers(groups, head)) - Others(groups[d], kept)
    ensures Group(b - Losers(groups, head), groups[d])
    ensures forall n :: n in groups[d] ==> (b - Losers(groups, head))[n] == b[n]
  {}

  lemma HeadsNext(b: Backups, groups: map<string, seq<string>>, head: map<string, string>, d: string, kept: string)
    requires Partition(b, groups) && Heads(b, groups, head) && d in groups
    requires kept in groups[d] && forall n :: n in groups[d] ==> b[n].mtime <= b[kept].mtime
    ensures Heads(b, groups, head[d := kept])
  {}

  lemma NoLosers(b: Backups, groups: map<string, seq<string>>)
    ensures b - Losers(groups, map[]) == b
  {}

  /** One round of Prune's second loop. */
  method SettleGroup(h: Host, group: seq<string>, d: string, ghost b: Backups, ghost groups: map<string, seq<string>>,
                     ghost head: map<string, string>)
    returns (r: Outcome, kept: string, ghost torn: Option<string>)
    requires Partition(b, groups) && d in groups && group == groups[d] && d !in head
    requires Heads(b, groups, head) && h.backups == b - Losers(groups, head)
    modifies h`backups, h`clock, h`faults
    ensures h.faults == old(h.faults) + Faults(!r.Ok?)
    ensures Heads(b, groups, head[d := kept])
    ensures r.Ok? ==> torn.None? && h.backups == b - Losers(groups, head[d := kept])
    ensures h.clock == old(h.clock) + (if torn.Some? then 1 else 0)
    ensures Thinned(b, h.backups, Losers(groups, head[d := kept]), torn, old(h.clock))
  {
    LosersNext(b, groups, head, d, "");
    r, kept, torn := PruneGroup(h, group);
    LosersNext(b, groups, head, d, kept);
    HeadsNext(b, groups, head, d, kept);
    hide Thinned, Losers, Others, Group, Partition;
    ThinnedAfterRemoval(b, Losers(groups, head), h.backups, Others(group, kept),
                        Losers(groups, head[d := kept]), torn, old(h.clock));
  }

  /** What the second loop makes of the entries, ended early or not. */
  ghost predicate GroupsSettled(b: Backups, groups: map<string, seq<string>>, head: map<string, string>,
      torn: Option<string>,
                                b': Backups, now: nat, r: Outcome)
    requires Partition(b, groups)
  {
    && Heads(b, groups, head)
    && (r.Ok? ==> torn.None? && head.Keys == groups.Keys && b' == b - Losers(groups, head))
    && Thinned(b, b', Losers(groups, head), torn, now)
  }

  /** Prune's second loop, over the groups in any order. */
  method SettleGroups(h: Host, groups: map<string, seq<string>>)
    returns (r: Outcome, ghost head: map<string, string>, ghost torn: Option<string>)
    requires Partition(h.backups, groups)
    modifies h`backups, h`clock, h`faults
    ensures h.faults == old(h.faults) + Faults(!r.Ok?)
    ensures h.clock == old(h.clock) + (if torn.Some? then 1 else 0)
    ensures GroupsSettled(old(h.backups), groups, head, torn, h.backups, old(h.clock), r)
  {
    r, head, torn := Ok, map[], None;
    ghost var b := h.backups;
    assert Heads(b, groups, map[]);
    NoLosers(b, groups);
    hide Partition, Thinned, Losers, Heads;
    var rest := groups.Keys;
    while rest != {}
      invariant r.Ok? && torn.None? && h.clock == old(h.clock) && h.faults == old(h.faults)
      invariant rest !! head.Keys && rest + head.Keys == groups.Keys
      invariant Heads(b, groups, head)
      invariant h.backups == b - Losers(groups, head)
      decreases rest
    {
      var d :| d in rest;
      rest := rest - {d};
      var kept;
      r, kept, torn := SettleGroup(h, groups[d], d, b, groups, head);
      head := head[d := kept];
      if !r.Ok? {
        return;
      }
    }
    RemovalThins(b, Losers(groups, head), h.clock);
  }

  /** A Prune that did not get past its first loop. */
  lemma DroppedResult(b: Backups, known: set<string>, torn: Option<string>, b': Backups, now: nat, r: Outcome)
    requires !r.Ok? && Thinned(b, b', DoomedSet(b, known, map[]), torn, now)
    ensures PruneResult(b, known, map[], torn, b', now, r)
  {}

  /** A Prune that got to its second loop. */
  lemma SettledResult(b: Backups, known: set<string>, names: seq<string>, groups: map<string, seq<string>>,
                      head: map<string, string>, torn: Option<string>, b': Backups, now: nat, r: Outcome)
    requires forall n :: n in names <==> Listed(b, n)
    requires Grouped(names, known, groups) && Partition(PrunedBy(b, known, map[]), groups)
    requires GroupsSettled(PrunedBy(b, known, map[]), groups, head, torn, b', now, r)
    ensures PruneResult(b, known, head, torn, b', now, r)
  {
    HeadsThin(b, known, names, groups, head, b', torn, now);
    HeadsChoose(b, known, names, groups, head);
    HeadsDoom(b, known, names, groups, head);
    hide Thinned, Chooses, DoomedSet, Partition, Grouped, Heads, Losers, Listed;
  }

  /** Prune from its listing on. */
  method PruneListed(h: Host, names: seq<string>, known: set<string>)
    returns (r: Outcome, ghost head: map<string, string>, ghost torn: Option<string>)
    requires forall n :: n in names <==> Listed(h.backups, n)
    requires forall i, j :: 0 <= i < j < |names| ==> names[i] != names[j]
    modifies h`backups, h`clock, h`faults
    ensures h.faults == old(h.faults) + Faults(!r.Ok?)
    ensures h.clock == old(h.clock) + (if torn.Some? then 1 else 0)
    ensures PruneResult(old(h.backups), known, head, torn, h.backups, old(h.clock), r)
  {
    hide Thinned, DoomedSet, Partition, Grouped, GroupsSettled, Listed, PrunedBy, PruneResult;
    head, torn := map[], None;
    ghost var b := h.backups;
    var byDeploy;
    r, byDeploy, torn := DropUnknown(h, names, known);
    if !r.Ok? {
      DroppedResult(b, known, torn, h.backups, old(h.clock), r);
      return;
    }
    GroupsPartition(b, known, names, byDeploy);
    r, head, torn := SettleGroups(h, byDeploy);
    SettledResult(b, known, names, byDeploy, head, torn, h.backups, old(h.clock), r);
  }

  method Prune(h: Host, knownDeployments: seq<string>)
    returns (r: Outcome, ghost head: map<string, string>, ghost torn: Option<string>)
    modifies h`backups, h`clock, h`pruned, h`faults
    ensures h.faults == old(h.faults) + Faults(!r.Ok?)
    ensures PruneOutcome(old(h.OnDisk()), Elements(knownDeployments), head, torn, h.OnDisk(), r)
    ensures h.pruned == r
  {
    var names;
    r, names := List(h);
    if !r.Ok? {
      head, torn := map[], None;
      h.pruned := r;
      RemovalThins(h.backups, {}, h.clock);
      return;
    }
    r, head, torn := PruneListed(h, names, Elements(knownDeployments));
    h.pruned := r;
  }

  /** Prune's groups are disjoint, and complete once the unknown deployments are gone. */
  lemma GroupsPartition(b: Backups, known: set<string>, names: seq<string>, groups: map<string, seq<string>>)
    requires forall n :: n in names <==> Listed(b, n)
    requires Grouped(names, known, groups)
    ensures Partition(PrunedBy(b, known, map[]), groups)
  {}

  /** The heads of all groups settle what Prune removes. */
  lemma HeadsChoose(b: Backups, known: set<string>, names: seq<string>, groups: map<string, seq<string>>,
      head: map<string, string>)
    requires forall n :: n in names <==> Listed(b, n)
    requires Grouped(names, known, groups)
    requires Partition(PrunedBy(b, known, map[]), groups)
    requires Heads(PrunedBy(b, known, map[]), groups, head)
    ensures Chooses(b, known, head)
    ensures head.Keys == groups.Keys ==> ChoosesAll(b, known, head)
  {}

  /** ... the unknown ones and the losers. */
  lemma HeadsDoom(b: Backups, known: set<string>, names: seq<string>, groups: map<string, seq<string>>,
      head: map<string, string>)
    requires forall n :: n in names <==> Listed(b, n)
    requires Grouped(names, known, groups)
    requires Partition(PrunedBy(b, known, map[]), groups)
    requires Heads(PrunedBy(b, known, map[]), groups, head)
    ensures DoomedSet(b, known, head) == DoomedSet(b, known, map[]) + Losers(groups, head)
    ensures PrunedBy(b, known, map[]) - Losers(groups, head) == PrunedBy(b, known, head)
  {}

  lemma HeadsThin(b: Backups, known: set<string>, names: seq<string>, groups: map<string, seq<string>>,
      head: map<string, string>,
                  b': Backups, torn: Option<string>, now: nat)
    requires forall n :: n in names <==> Listed(b, n)
    requires Grouped(names, known, groups)
    requires Partition(PrunedBy(b, known, map[]), groups)
    requires Heads(PrunedBy(b, known, map[]), groups, head)
    requires Thinned(PrunedBy(b, known, map[]), b', Losers(groups, head), torn, now)
    ensures Thinned(b, b', DoomedSet(b, known, head), torn, now)
  {
    HeadsDoom(b, known, names, groups, head);
    ThinnedAfterRemoval(b, DoomedSet(b, known, map[]), b', Losers(groups, head), DoomedSet(b, known, head), torn, now);
  }

  // ---- the restore marker ----

  /** os.Stat of the marker path. */
  method RestoreRequested(h: Host) returns (r: Outcome, requested: bool)
    modifies h`faults
    ensures h.faults == old(h.faults) + Faults(!r.Ok?)
    ensures requested <==> r.Ok? && "restore" in h.backups
  {
    r, requested := Exists(h, MARKER);
  }

  method ClearRestoreMarker(h: Host) returns (r: Outcome)
    modifies h`backups, h`cleared, h`faults
    ensures h.faults == old(h.faults) + Faults(!r.Ok?)
    ensures h.cleared == r
    ensures r.Ok? ==> h.backups == old(h.backups) - {MARKER}
    ensures r.Err? ==> h.backups == old(h.backups)
    ensures r.Crash? ==> h.backups in {old(h.backups), old(h.backups) - {MARKER}}
  {
    r := h.UnlinkMarker();
  }
}
