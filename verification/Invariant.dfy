/** Every step of the protocol keeps its invariant. */
module Invariant {
  import opened FileSystem
  import opened Names
  import opened Backup
  import opened Recovery
  import opened BackupLaws
  import opened Protocol

  lemma InitInv(w: World)
    requires Init(w)
    ensures Inv(w)
  {}

  lemma NameIsProper(m: LastBoot)
    requires ValidBootId(m.boot) && '_' !in m.deployment
    ensures Name(m) != MARKER && '_' in Name(m) && Before(Name(m)) == m.deployment
    ensures !HasSuffix(Name(m), TMP_SUFFIX) && !HasSuffix(Name(m), RESTORING_SUFFIX)
  {
    MarkerIsNoName(m);
    JoinHasUnderscore(m.deployment, m.boot);
    SuffixOfJoin(m.deployment, m.boot, TMP_SUFFIX);
    SuffixOfJoin(m.deployment, m.boot, RESTORING_SUFFIX);
    CutInvertsJoin(m.deployment, m.boot);
  }

  /** A backup of a recorded boot of a known deployment is on the list. */
  lemma OwnBackupListed(w: World, m: LastBoot)
    requires IdsInv(w) && EntryInv(w)
    requires m.boot in w.booted && w.booted[m.boot] == m && m.deployment in w.known
    requires Name(m) in w.disk.backups
    ensures Listed(w.disk.backups, Name(m)) && Before(Name(m)) == m.deployment
    ensures Faithful(w, Name(m)) && w.disk.backups[Name(m)].meta == Some(m)
  {
    NameIsProper(m);
    assert Faithful(w, Name(m));
    var k := w.disk.backups[Name(m)].meta.value;
    assert k.boot in w.booted && w.booted[k.boot] == k;
    JoinInjective(m.deployment, m.boot, k.deployment, k.boot);
  }

  /** The backup of the recorded boot is the newest of its deployment. */
  lemma OwnBackupIsNewest(w: World, m: LastBoot)
    requires IdsInv(w) && RecordInv(w) && EntryInv(w) && NewestInv(w)
    requires w.disk.lastBoot == Some(m) && m.deployment in w.known && Name(m) in w.disk.backups
    ensures NewestOf(w.disk.backups, m.deployment, Name(m))
    ensures w.disk.backups[Name(m)].meta == Some(m)
  {
    OwnBackupListed(w, m);
  }

  /** No backup is named after the boot that is running. */
  lemma NoBackupOfCurrentBoot(w: World)
    requires IdsInv(w) && EntryInv(w) && !w.phase.Off? && w.self.deployment in w.known
    ensures Name(w.self) !in w.disk.backups
  {
    if Name(w.self) in w.disk.backups {
      OwnBackupListed(w, w.self);
    }
  }

  /** History only grows, and backups only go. */
  ghost predicate Extends(w: World, w': World) {
    && w.everKnown <= w'.everKnown && w.committed <= w'.committed
    && (forall d :: d in w'.known ==> d in w.known || d !in w.everKnown)
    && (forall b :: b in w.booted ==> b in w'.booted && w'.booted[b] == w.booted[b])
    && (forall b :: b in w.final ==> b in w'.final && w'.final[b] == w.final[b])
    && w.disk.clock <= w'.disk.clock
    && (forall n :: n in w'.disk.backups && n != MARKER ==>
        n in w.disk.backups && w'.disk.backups[n] == w.disk.backups[n])
    && (Marked(w'.disk) ==> Marked(w.disk) || w'.disk.backups[MARKER].Plain?)
    && (Marked(w'.disk) && Marked(w.disk) ==> w'.disk.backups[MARKER] in {w.disk.backups[MARKER], Plain})
  }

  lemma EntriesCarryOver(w: World, w': World)
    requires EntryInv(w) && Extends(w, w')
    ensures EntryInv(w')
    ensures forall n :: Listed(w'.disk.backups, n) ==>
            Listed(w.disk.backups, n) && w'.disk.backups[n] == w.disk.backups[n]
    ensures forall m: LastBoot :: Recorded(w, m) ==> Recorded(w', m)
  {
    var b, b' := w.disk.backups, w'.disk.backups;
    assert '_' !in MARKER;
    forall n | Listed(b', n)
      ensures Listed(b, n) && b'[n] == b[n]
      ensures Before(n) in w'.known ==> Before(n) in w.known
    {
      assert n != MARKER;
    }
    forall m: LastBoot | Recorded(w, m)
      ensures Recorded(w', m)
    {}
    forall n | n in b' && Listed(b', n) && Before(n) in w'.known
      ensures Faithful(w', n)
    {
      assert Faithful(w, n);
    }
  }

  /** The invariant but for the phase: what a stage has to leave behind. */
  ghost predicate Steady(w: World) {
    && IdsInv(w) && RecordInv(w) && EntryInv(w) && NewestInv(w) && !w.phase.Off?
    && (Secured(w) || Intact(w) || Interrupted(w))
    && (w.kubeletUp ==> Secured(w))
    && (forall b :: b in w.touched ==> Covered(w) || (w.disk.lastBoot.Some? && w.disk.lastBoot.value.boot == b))
  }

  lemma CoveredIsSteady(w: World)
    requires IdsInv(w) && RecordInv(w) && EntryInv(w) && NewestInv(w) && !w.phase.Off? && Covered(w)
    ensures Steady(w)
  {
    hide IdsInv, RecordInv, EntryInv, NewestInv, Covered, Intact, Interrupted;
  }

  lemma PowerOffKeepsInv(w: World)
    requires Steady(w)
    ensures Inv(PowerOff(w))
  {
    var w' := PowerOff(w);
    SnapshotTwice(w.disk.live);
    EntriesCarryOver(w, w');
    if Interrupted(w) {
      assert Interrupted(w');
    }
  }

  lemma PowerOnKeepsInv(w: World, next: LastBoot, w': World)
    requires Inv(w) && w.phase.Off?
    requires if w.useBackups then next.deployment in w.known else next.deployment == ""
    requires ValidBootId(next.boot) && next.boot !in w.booted
    requires !Covered(w) && !Intact(w) ==>
               next.deployment == w.self.deployment
                   || (next.deployment != "" && HasCandidate(w.disk.backups, next.deployment))
    requires w' == w.(phase := Idle, self := next, booted := w.booted[next.boot := next])
    ensures Inv(w')
  {
    EntriesCarryOver(w, w');
    if !Covered(w) && !Intact(w) {
      assert Interrupted(w);
      assert Interrupted(w');
    }
  }

  /** Writing live data and events does no harm once the last boot is secured. */
  lemma WritesKeepSteady(w: World, w': World)
    requires Inv(w) && !w.phase.Off? && Secured(w)
    requires w' == w.(disk := w.disk.(live := w'.disk.live, lastEvent := w'.disk.lastEvent),
                      kubeletUp := w'.kubeletUp, touched := w'.touched)
    requires w'.touched <= w.touched + {w.self.boot}
    ensures Steady(w') && Secured(w')
  {
    EntriesCarryOver(w, w');
    assert Covered(w') == Covered(w);
  }

  lemma ClusterKeepsInv(w: World, live: Image)
    requires Inv(w) && w.kubeletUp
    ensures Inv(w.(disk := w.disk.(live := live), touched := w.touched + {w.self.boot}))
  {
    var w' := w.(disk := w.disk.(live := live), touched := w.touched + {w.self.boot});
    WritesKeepSteady(w, w');
    hide IdsInv, RecordInv, EntryInv, NewestInv, Covered, Intact, Interrupted;
    StayedUpKeepsInv(w', w'.phase);
  }

  lemma AddKeepsInv(w: World, id: string)
    requires Inv(w) && !w.phase.Off? && id !in w.everKnown && '_' !in id
    ensures Inv(w.(known := w.known + {id}, everKnown := w.everKnown + {id}))
  {
    var w' := w.(known := w.known + {id}, everKnown := w.everKnown + {id});
    EntriesCarryOver(w, w');
    assert Covered(w) ==> Covered(w');
    assert Interrupted(w) ==> Interrupted(w');
  }

  lemma CollectKeepsInv(w: World, id: string)
    requires Inv(w) && !w.phase.Off? && id != w.self.deployment
    ensures Inv(w.(known := w.known - {id}))
  {}

  lemma MarkerKeepsInv(w: World)
    requires Inv(w) && !w.phase.Off?
    ensures Inv(w.(disk := w.disk.(backups := w.disk.backups[MARKER := Plain])))
  {
    var w' := w.(disk := w.disk.(backups := w.disk.backups[MARKER := Plain]));
    MarkerOnlyExtends(w, w'.disk);
    EntriesCarryOver(w, w');
    if w.disk.lastBoot.Some? {
      MarkerIsNoName(w.disk.lastBoot.value);
    }
    assert Covered(w') == Covered(w);
    if Interrupted(w) {
      MarkerPlacedIsNoCandidate(w.disk.backups, w.self.deployment);
    }
  }

  lemma ServiceKeepsInv(w: World, next: Phase)
    requires Inv(w) && !w.phase.Off?
    requires next.Idle? || (next.Started? && (w.phase.Idle? || w.phase.Healthy?))
    ensures Inv(w.(phase := next))
  {}

  // ---- the stages of a boot ----

  lemma StayedUpKeepsInv(w: World, next: Phase)
    requires Steady(w)
    requires !next.Off? && PhaseInv(w.(phase := next))
    requires Secured(w) || (Intact(w) && (next.Idle? || next.Restored?)) || next.Idle?
    ensures Inv(w.(phase := next))
  {
    var w' := w.(phase := next);
    EntriesCarryOver(w, w');
    assert Covered(w') == Covered(w);
    assert Interrupted(w) && next.Idle? ==> Interrupted(w');
  }

  /** From the world as a stage leaves it to the world the stage leads to. */
  lemma EndsKeepsInv(w: World, r: Outcome, next: Phase, w': World)
    requires Steady(w)
    requires r.Ok? ==> !next.Off? && PhaseInv(w.(phase := next)) && (Secured(w) || (next.Restored? && Intact(w)))
    requires Ends(w, w.disk, r, next, w')
    ensures Inv(w')
  {
    hide Steady, Covered, Intact, Current;
    if r.Crash? && w' == PowerOff(w) {
      PowerOffKeepsInv(w);
    } else {
      StayedUpKeepsInv(w, if r.Ok? then next else Idle);
    }
  }

  lemma MarkerOnlyExtends(w: World, d: Disk)
    requires d.clock == w.disk.clock
    requires d.backups in {w.disk.backups, w.disk.backups - {MARKER}, w.disk.backups[MARKER := Plain]}
    ensures Extends(w, w.(disk := d))
  {}

  /** Dropping the marker, or not, and leaving last-boot alone. */
  lemma DiskCarriesOver(w: World, d: Disk)
    requires Inv(w) && !w.phase.Off?
    requires d.lastBoot == w.disk.lastBoot && d.clock == w.disk.clock
    requires d.backups in {w.disk.backups, w.disk.backups - {MARKER}}
    ensures var w' := w.(disk := d);
            && IdsInv(w') && RecordInv(w') && EntryInv(w') && NewestInv(w')
            && Covered(w') == Covered(w) && Current(w') == Current(w)
  {
    var w' := w.(disk := d);
    MarkerOnlyExtends(w, d);
    EntriesCarryOver(w, w');
    if w.disk.lastBoot.Some? {
      MarkerIsNoName(w.disk.lastBoot.value);
    }
  }

  /** A request for which no backup was chosen leaves live data alone, and the marker if there is one to choose. */
  lemma NothingChosen(d: Disk, deployment: string, failed: bool, d': Disk, r: Outcome)
    requires MaybeRestoreOutcome(d, deployment, "", failed, d', r)
    ensures d'.live == d.live && d'.lastBoot == d.lastBoot && d'.clock == d.clock
    ensures d'.backups in {d.backups, d.backups - {MARKER}}
    ensures Marked(d) && deployment != "" && HasCandidate(d.backups, deployment) && !failed ==>
              d'.backups == d.backups && !r.Ok?
  {}

  lemma UnchosenKeepsInv(w: World, failed: bool, d: Disk, r: Outcome, w': World)
    requires Inv(w) && w.phase.Started? && w.useBackups
    requires MaybeRestoreOutcome(w.disk, w.self.deployment, "", failed, d, r)
    requires failed ==> Covered(w) || Intact(w.(disk := d)) || Marked(d)
    requires Ends(w, d, r, Protocol.Restored, w')
    ensures Inv(w')
  {
    NothingChosen(w.disk, w.self.deployment, failed, d, r);
    DiskCarriesOver(w, d);
    EndsKeepsInv(w.(disk := d), r, Protocol.Restored, w');
  }

  /** maybeRestore stopped on the way: the last boot is covered, or its data still intact, or the marker still there. */
  lemma UnfinishedKeepsInv(w: World, name: string, d: Disk, r: Outcome, w': World)
    requires Inv(w) && w.phase.Started? && w.useBackups && !r.Ok?
    requires w.self.deployment != "" && name != "" && IsLatest(w.disk.backups, w.self.deployment, name)
    requires d.lastBoot == w.disk.lastBoot && d.clock == w.disk.clock
    requires d.backups in {w.disk.backups, w.disk.backups - {MARKER}}
    requires Covered(w) || Intact(w.(disk := d)) || Marked(d)
    requires Ends(w, d, r, Protocol.Restored, w')
    ensures Inv(w')
  {
    DiskCarriesOver(w, d);
    assert Candidate(w.disk.backups, w.self.deployment, name);
    EndsKeepsInv(w.(disk := d), r, Protocol.Restored, w');
  }

  /** The restore candidate of the booted deployment is a faithful backup of one of its boots. */
  lemma CandidateIsItsBoots(w: World, name: string)
    requires IdsInv(w) && EntryInv(w) && w.self.deployment in w.known
    requires name in w.disk.backups && Candidate(w.disk.backups, w.self.deployment, name)
    ensures Listed(w.disk.backups, name) && Faithful(w, name)
    ensures w.disk.backups[name].meta.value.deployment == w.self.deployment
  {
    CandidateIsGroupMember(w.disk.backups, w.self.deployment, name);
    var m := w.disk.backups[name].meta.value;
    assert Faithful(w, name);
    assert w.booted[m.boot] == m;
    CutInvertsJoin(m.deployment, m.boot);
  }

  lemma AdoptedIsNewest(b: Backups, name: string, m: LastBoot, b': Backups)
    requires '_' !in m.deployment && Name(m) == name && Name(m) != MARKER
    requires name != "" && IsLatest(b, m.deployment, name)
    requires b' in {b, b - {MARKER}}
    ensures name in b' && b'[name].Folder?
    ensures forall n :: n in b' && Listed(b', n) && Before(n) == m.deployment ==> b'[n].mtime <= b'[name].mtime
  {}

  /** Pointing last-boot at the restore candidate of the booted deployment. */
  lemma AdoptedCandidate(w: World, name: string, d: Disk)
    requires IdsInv(w) && EntryInv(w) && !w.phase.Off? && w.useBackups
    requires name != "" && IsLatest(w.disk.backups, w.self.deployment, name)
    requires d.backups in {w.disk.backups, w.disk.backups - {MARKER}} && d.clock == w.disk.clock
    requires d.lastBoot == w.disk.backups[name].meta
    ensures Faithful(w, name)
    ensures var w' := w.(disk := d);
            IdsInv(w') && RecordInv(w') && EntryInv(w') && NewestInv(w') && Covered(w')
  {
    var w' := w.(disk := d);
    MarkerOnlyExtends(w, d);
    EntriesCarryOver(w, w');
    CandidateIsItsBoots(w, name);
    var m := w.disk.backups[name].meta.value;
    assert ValidBootId(m.boot) by {
      assert w.booted[m.boot] == m;
    }
    NameIsProper(m);
    AdoptedIsNewest(w.disk.backups, name, m, d.backups);
  }

  lemma AdoptedSteady(w: World, name: string, d: Disk)
    requires Inv(w) && w.phase.Started? && w.useBackups
    requires name != "" && IsLatest(w.disk.backups, w.self.deployment, name)
    requires d.backups in {w.disk.backups, w.disk.backups - {MARKER}}
    requires RestoredTo(w.disk, name, d.(backups := w.disk.backups))
    ensures Steady(w.(disk := d)) && Covered(w.(disk := d))
  {
    hide SafeInv, NewestInv, IsLatest, Covered, Steady;
    AdoptedCandidate(w, name, d);
    hide IdsInv, RecordInv, EntryInv;
    CoveredIsSteady(w.(disk := d));
  }

  /** maybeRestore restored, and perhaps lost power just after. */
  lemma RestoredKeepsInv(w: World, name: string, d: Disk, r: Outcome, w': World)
    requires Inv(w) && w.phase.Started? && w.useBackups && !r.Err?
    requires w.self.deployment != "" && name != "" && IsLatest(w.disk.backups, w.self.deployment, name)
    requires d.backups in {w.disk.backups, w.disk.backups - {MARKER}}
    requires RestoredTo(w.disk, name, d.(backups := w.disk.backups))
    requires Ends(w, d, r, Protocol.Restored, w')
    ensures Inv(w')
  {
    AdoptedSteady(w, name, d);
    hide Inv, Steady, Covered, RestoredTo, IsLatest;
    EndsKeepsInv(w.(disk := d), r, Protocol.Restored, w');
  }

  /** ... and what is live then is what the boot named by last-boot left. */
  lemma RestoredIsFinal(w: World, name: string, d: Disk)
    requires Inv(w) && !w.phase.Off? && w.useBackups
    requires name != "" && IsLatest(w.disk.backups, w.self.deployment, name)
    requires d.backups in {w.disk.backups, w.disk.backups - {MARKER}}
    requires RestoredTo(w.disk, name, d.(backups := w.disk.backups))
    ensures d.lastBoot.Some? && Name(d.lastBoot.value) == name && d.lastBoot.value.boot in w.final
    ensures Snapshot(d.live) == w.final[d.lastBoot.value.boot]
  {
    AdoptedCandidate(w, name, d);
    RestoredSplit(w.disk.live, w.disk.backups[name].image);
  }

  // ---- the snapshot ----

  /** The new backup joins the list with the newest stamp, and is faithful if the data was intact. */
  lemma CreatedEntries(w: World, lb: LastBoot, d: Disk)
    requires IdsInv(w) && EntryInv(w)
    requires Recorded(w, lb) && Nameable(lb) && lb.deployment in w.everKnown
    requires Name(lb) !in w.disk.backups && d == AfterCreate(w.disk, lb)
    requires lb.deployment in w.known ==> lb.boot in w.final && Snapshot(w.disk.live) == w.final[lb.boot]
    ensures EntryInv(w.(disk := d))
    ensures forall n :: n in d.backups && Listed(d.backups, n) ==> d.backups[n].mtime <= d.backups[Name(lb)].mtime
  {
    var w' := w.(disk := d);
    NameIsProper(lb);
    CreateKeepsComplete(w.disk, lb, d, Ok);
    CreatedStamps(w, lb, d);
    forall n | n in d.backups && Listed(d.backups, n)
      ensures Before(n) in w.everKnown
      ensures d.backups[n].meta.Some? ==> Recorded(w', d.backups[n].meta.value)
      ensures Before(n) in w.known ==> Faithful(w', n)
    {
      if n == Name(lb) {
        assert Recorded(w', lb);
      } else {
        assert Listed(w.disk.backups, n);
        assert Before(n) in w.known ==> Faithful(w, n);
      }
    }
  }

  lemma CreatedStamps(w: World, lb: LastBoot, d: Disk)
    requires StampInv(w) && Nameable(lb)
    requires Name(lb) !in w.disk.backups && d == AfterCreate(w.disk, lb)
    ensures StampInv(w.(disk := d))
    ensures forall n :: n in d.backups && Listed(d.backups, n) ==> d.backups[n].mtime <= d.backups[Name(lb)].mtime
  {}

  /** Last-boot's backup has just been taken of intact data. */
  lemma CreatedSteady(w: World, lb: LastBoot, d: Disk)
    requires Inv(w) && w.phase.Restored? && w.useBackups
    requires w.disk.lastBoot == Some(lb) && Nameable(lb) && lb.boot != w.self.boot
    requires Name(lb) !in w.disk.backups && d == AfterCreate(w.disk, lb)
    ensures Steady(w.(disk := d)) && Covered(w.(disk := d))
  {
    assert d.lastBoot == w.disk.lastBoot;
    CreatedFromIntact(w, lb, d);
    hide EntryInv, NewestInv, Covered, AfterCreate, SafeInv, Steady, IdsInv, RecordInv, Name;
    SameRecord(w, d);
    CoveredIsSteady(w.(disk := d));
  }

  lemma SameRecord(w: World, d: Disk)
    requires IdsInv(w) && RecordInv(w) && d.lastBoot == w.disk.lastBoot
    ensures IdsInv(w.(disk := d)) && RecordInv(w.(disk := d))
  {}

  /** Up to here the data of a boot without a backup has not been touched. */
  lemma CreatedFromIntact(w: World, lb: LastBoot, d: Disk)
    requires Inv(w) && w.phase.Restored? && w.useBackups
    requires w.disk.lastBoot == Some(lb) && Nameable(lb) && lb.boot != w.self.boot
    requires Name(lb) !in w.disk.backups && d == AfterCreate(w.disk, lb)
    ensures EntryInv(w.(disk := d)) && NewestInv(w.(disk := d)) && Covered(w.(disk := d))
  {
    CreatedEntries(w, lb, d);
    hide EntryInv, IdsInv, RecordInv, SafeInv, Listed;
  }

  lemma CreatedKeepsInv(w: World, d: Disk, r: Outcome, w': World)
    requires Inv(w) && w.phase.Restored? && !r.Err?
    requires OwesSnapshot(w.disk, w.useBackups, w.self.boot)
    requires d == AfterCreate(w.disk, w.disk.lastBoot.value)
    requires Ends(w, d, r, Running(0), w')
    ensures Inv(w')
  {
    var lb := w.disk.lastBoot.value;
    if Name(lb) in w.disk.backups {
      UnchangedKeepsInv(w, r, Running(0), w');
    } else {
      CreatedSteady(w, lb, d);
      hide Inv, Steady, Covered, AfterCreate;
      EndsKeepsInv(w.(disk := d), r, Running(0), w');
    }
  }

  /** A Create that stopped early has only touched its staging directory. */
  lemma UncreatedEntries(w: World, lb: LastBoot, d: Disk)
    requires EntryInv(w)
    requires CreateUnfinished(w.disk, lb, d)
    ensures EntryInv(w.(disk := d))
    ensures forall n :: !HasSuffix(n, TMP_SUFFIX) ==>
              (n in d.backups <==> n in w.disk.backups) && (n in d.backups ==> d.backups[n] == w.disk.backups[n])
  {
    var w' := w.(disk := d);
    TmpHasSuffix(Name(lb));
    StagingIsOutside(w.disk.backups, d.backups, TmpName(lb));
    forall n | n in d.backups && Listed(d.backups, n)
      ensures Listed(w.disk.backups, n) && d.backups[n] == w.disk.backups[n]
      ensures d.backups[n].meta.Some? ==> Recorded(w', d.backups[n].meta.value)
      ensures Before(n) in w.known ==> Faithful(w', n)
    {
      assert Before(n) in w.known ==> Faithful(w, n);
    }
  }

  lemma UncreatedKeepsInv(w: World, d: Disk, r: Outcome, w': World)
    requires Inv(w) && w.phase.Restored? && !r.Ok?
    requires w.disk.lastBoot.Some? && CreateUnfinished(w.disk, w.disk.lastBoot.value, d)
    requires Ends(w, d, r, Running(0), w')
    ensures Inv(w')
  {
    UncreatedSteady(w, w.disk.lastBoot.value, d);
    hide Inv, Steady, Covered, CreateUnfinished;
    EndsKeepsInv(w.(disk := d), r, Running(0), w');
  }

  lemma UncreatedSteady(w: World, lb: LastBoot, d: Disk)
    requires Inv(w) && w.phase.Restored?
    requires w.disk.lastBoot == Some(lb) && CreateUnfinished(w.disk, lb, d)
    ensures Steady(w.(disk := d))
  {
    NameIsProper(lb);
    UncreatedEntries(w, lb, d);
  }

  lemma StagingIsOutside(b: Backups, b': Backups, tmp: string)
    requires HasSuffix(tmp, TMP_SUFFIX) && b - {tmp} == b' - {tmp}
    ensures forall n :: n != tmp ==> (n in b <==> n in b') && (n in b ==> b[n] == b'[n])
    ensures forall n :: Listed(b, n) <==> Listed(b', n)
  {
    forall n | n != tmp
      ensures (n in b <==> n in b') && (n in b ==> b[n] == b'[n])
    {
      assert n in b <==> n in b - {tmp};
      assert n in b' <==> n in b' - {tmp};
      if n in b {
        assert (b - {tmp})[n] == b[n] && (b' - {tmp})[n] == b'[n];
      }
    }
  }

  // ---- gates, prune, commit ----

  lemma GateKeepsInv(w: World, r: Outcome, up: bool, d: Disk, w': World)
    requires Inv(w) && w.phase.Running?
    requires d == w.disk.(live := d.live, lastEvent := d.lastEvent)
    requires Ends(Gating(w, up), d, r, Running(w.phase.gates + 1), w')
    ensures Inv(w')
  {
    var gated := Gating(w, up).(disk := d);
    WritesKeepSteady(w, gated);
    hide Inv, Steady, Covered;
    EndsKeepsInv(gated, r, Running(w.phase.gates + 1), w');
  }

  /** The commit got as far as the record: this boot is the last one, and has no backup yet. */
  lemma CommittedSteady(w: World, d: Disk)
    requires Inv(w) && w.phase.Pruned?
    requires d == w.disk.(lastBoot := Some(w.self))
    ensures Steady(Committing(w, d).(disk := d))
  {
    EntriesCarryOver(w, Committing(w, d).(disk := d));
    if w.self.deployment in w.known {
      NoBackupOfCurrentBoot(w);
    }
  }

  lemma CommitKeepsInv(w: World, d: Disk, r: Outcome, w': World)
    requires Inv(w) && w.phase.Pruned?
    requires d == w.disk || d == w.disk.(lastBoot := Some(w.self))
    requires r.Ok? ==> d.lastBoot == Some(w.self)
    requires Ends(Committing(w, d), d, r, Committed, w')
    ensures Inv(w')
  {
    if d.lastBoot == Some(w.self) {
      CommittedSteady(w, d);
      hide Inv, Steady;
      EndsKeepsInv(Committing(w, d).(disk := d), r, Committed, w');
    } else {
      UnchangedKeepsInv(w, r, Committed, w');
    }
  }

  lemma AnnounceKeepsInv(w: World, d: Disk, r: Outcome, w': World)
    requires Inv(w) && w.phase.Committed?
    requires d == w.disk.(lastEvent := d.lastEvent)
    requires Ends(w, d, r, Healthy, w')
    ensures Inv(w')
  {
    var noted := w.(disk := d);
    WritesKeepSteady(w, noted);
    assert PhaseInv(noted.(phase := Healthy));
    hide Inv, Steady, Covered;
    EndsKeepsInv(noted, r, Healthy, w');
  }

  /** Prune, complete or not, leaves every entry of a known deployment that heads its group as it was. */
  lemma PrunedEntries(w: World, head: map<string, string>, torn: Option<string>, d: Disk, r: Outcome)
    requires EntryInv(w)
    requires PruneOutcome(w.disk, w.known, head, torn, d, r)
    requires torn.Some? ==> Before(torn.value) !in w.known
    ensures EntryInv(w.(disk := d))
    ensures forall n :: Listed(d.backups, n) && Before(n) in w.known ==>
            Listed(w.disk.backups, n) && d.backups[n] == w.disk.backups[n]
  {
    var w' := w.(disk := d);
    forall n | n in d.backups && Listed(d.backups, n)
      ensures n in w.disk.backups && Listed(w.disk.backups, n)
      ensures Before(n) in w.known ==> d.backups[n] == w.disk.backups[n] && Faithful(w', n)
      ensures d.backups[n].meta.Some? ==> Recorded(w', d.backups[n].meta.value)
    {
      assert Remnant(w.disk.backups[n], d.backups[n], w.disk.clock);
      assert Before(n) in w.known ==> Faithful(w, n);
    }
    PrunedStamps(w, head, torn, d, r);
  }

  lemma PrunedStamps(w: World, head: map<string, string>, torn: Option<string>, d: Disk, r: Outcome)
    requires StampInv(w)
    requires PruneOutcome(w.disk, w.known, head, torn, d, r)
    ensures StampInv(w.(disk := d))
  {}

  /** The recorded boot's backup survives a Prune and is still the newest. */
  lemma PrunedRecord(w: World, head: map<string, string>, torn: Option<string>, d: Disk, r: Outcome)
    requires IdsInv(w) && RecordInv(w) && EntryInv(w) && NewestInv(w)
    requires PruneOutcome(w.disk, w.known, head, torn, d, r)
    requires torn.Some? ==> Before(torn.value) !in w.known
    ensures d == w.disk.(backups := d.backups, clock := d.clock)
    ensures NewestInv(w.(disk := d)) && (Covered(w) ==> Covered(w.(disk := d)))
  {
    PrunedEntries(w, head, torn, d, r);
    if w.disk.lastBoot.Some? && w.disk.lastBoot.value.deployment in w.known
        && Name(w.disk.lastBoot.value) in w.disk.backups {
      OwnBackupIsNewest(w, w.disk.lastBoot.value);
      NewestIsSpared(w.disk.backups, w.known, head, Name(w.disk.lastBoot.value), w.disk.lastBoot.value.deployment);
    }
  }

  /** A stage that keeps ids, record and entries in order, and the last boot covered if it was, ends steady. */
  lemma SecuredStaysSteady(w: World, d: Disk)
    requires Inv(w) && !w.phase.Off? && Secured(w) && d == w.disk.(backups := d.backups, clock := d.clock)
    requires EntryInv(w.(disk := d)) && NewestInv(w.(disk := d)) && (Covered(w) ==> Covered(w.(disk := d)))
    ensures Steady(w.(disk := d)) && Secured(w.(disk := d))
  {
    hide EntryInv, NewestInv, Covered, Interrupted, Intact;
  }

  lemma PrunedSteady(w: World, head: map<string, string>, torn: Option<string>, d: Disk, r: Outcome)
    requires Inv(w) && w.phase.Running?
    requires PruneOutcome(w.disk, w.known, head, torn, d, r)
    requires torn.Some? ==> Before(torn.value) !in w.known
    ensures Steady(w.(disk := d)) && Secured(w.(disk := d))
  {
    hide PruneOutcome, EntryInv, NewestInv, Covered, IdsInv, RecordInv;
    PrunedEntries(w, head, torn, d, r);
    PrunedRecord(w, head, torn, d, r);
    SecuredStaysSteady(w, d);
  }

  lemma PruneKeepsInv(w: World, head: map<string, string>, torn: Option<string>, d: Disk, r: Outcome, w': World)
    requires Inv(w) && w.phase.Running?
    requires PruneOutcome(w.disk, w.known, head, torn, d, r)
    requires torn.Some? ==> Before(torn.value) !in w.known
    requires Ends(w, d, if r.Err? then Ok else r, Pruned, w')
    ensures Inv(w')
  {
    PrunedSteady(w, head, torn, d, r);
    hide Inv, Steady, PruneOutcome, Covered;
    EndsKeepsInv(w.(disk := d), if r.Err? then Ok else r, Pruned, w');
  }

  /** A stage that changed nothing. */
  lemma UnchangedKeepsInv(w: World, r: Outcome, next: Phase, w': World)
    requires Inv(w) && !w.phase.Off?
    requires r.Ok? ==> !next.Off? && PhaseInv(w.(phase := next)) && (Secured(w) || (next.Restored? && Intact(w)))
    requires Ends(w, w.disk, r, next, w')
    ensures Inv(w')
  {
    assert Steady(w);
    hide Inv, Steady;
    EndsKeepsInv(w, r, next, w');
  }

  /** A bootstrap writes live data only if the last boot is secured. */
  lemma BootstrapKeepsInv(w: World, d: Disk, w': World)
    requires Inv(w) && !w.phase.Off?
    requires d == w.disk.(live := d.live, lastEvent := d.lastEvent)
    requires d.live != w.disk.live ==> Secured(w)
    requires w' == w.(disk := d, touched := if d.live == w.disk.live then w.touched else w.touched + {w.self.boot})
    ensures Inv(w')
  {
    EntriesCarryOver(w, w');
    assert Covered(w') == Covered(w);
    assert Interrupted(w) ==> Interrupted(w');
  }

  /** A completed reset leaves nothing to keep; one that is not, no more than a bootstrap writes. */
  lemma ResetKeepsInv(w: World, r: Outcome, w': World)
    requires Inv(w) && Next(w, Resetting(r), w')
    ensures Inv(w')
  {
    if !r.Ok? {
      PartialResetKeepsInv(w, w');
    }
  }

  lemma PartialResetKeepsInv(w: World, w': World)
    requires Inv(w) && !w.phase.Off?
    requires w' == w.(disk := w.disk.(live := w'.disk.live, staged := w'.disk.staged), kubeletUp := w'.kubeletUp,
                      touched := if w'.disk.live == w.disk.live then w.touched else w.touched + {w.self.boot})
    requires w'.disk.live != w.disk.live ==> Secured(w)
    requires w'.kubeletUp ==> w.kubeletUp
    ensures Inv(w')
  {
    EntriesCarryOver(w, w');
    assert Covered(w') == Covered(w);
    assert Interrupted(w) ==> Interrupted(w');
  }

  // ---- every step ----

  /** Off ostree there is nothing to restore and nothing to snapshot. */
  lemma CoveredOffOSTree(w: World)
    requires IdsInv(w) && RecordInv(w) && !w.useBackups
    ensures Covered(w)
  {}

  lemma RestoreStageKeepsInv(w: World, name: string, failed: bool, r: Outcome, w': World)
    requires Inv(w) && Next(w, RestoreStage(name, failed, r), w')
    ensures Inv(w')
  {
    if !w.useBackups {
      CoveredOffOSTree(w);
      hide Inv, Covered;
      UnchangedKeepsInv(w, r, Protocol.Restored, w');
    } else {
      hide Inv, Covered, Intact, IsLatest, PartWay, AfterRestore;
      var d := w'.disk;
      if name == "" {
        UnchosenKeepsInv(w, failed, d, r, w');
      } else if !failed && RestoredTo(w.disk, name, d.(backups := w.disk.backups)) {
        RestoredKeepsInv(w, name, d, r, w');
      } else {
        UnfinishedKeepsInv(w, name, d, r, w');
      }
    }
  }

  lemma UnowedKeepsInv(w: World, r: Outcome, w': World)
    requires Inv(w) && w.phase.Restored?
    requires !OwesSnapshot(w.disk, w.useBackups, w.self.boot)
    requires Ends(w, w.disk, r, Running(0), w')
    ensures Inv(w')
  {
    assert Secured(w);
    EndsKeepsInv(w, r, Running(0), w');
  }

  lemma SnapshotStageKeepsInv(w: World, r: Outcome, w': World)
    requires Inv(w) && Next(w, SnapshotStage(r), w')
    ensures Inv(w')
  {
    hide Inv, AfterCreate, CreateUnfinished;
    var d := w'.disk;
    if !OwesSnapshot(w.disk, w.useBackups, w.self.boot) {
      UnowedKeepsInv(w, r, w');
    } else if d == AfterCreate(w.disk, w.disk.lastBoot.value) && !r.Err? {
      CreatedKeepsInv(w, d, r, w');
    } else {
      UncreatedKeepsInv(w, d, r, w');
    }
  }

  lemma PruneStageKeepsInv(w: World, head: map<string, string>, torn: Option<string>, r: Outcome, w': World)
    requires Inv(w) && Next(w, PruneStage(head, torn, r), w')
    ensures Inv(w')
  {
    if w.useBackups {
      hide Inv, PruneOutcome;
      PruneKeepsInv(w, head, torn, w'.disk, r, w');
    } else {
      UnchangedKeepsInv(w, Ok, Pruned, w');
    }
  }

  lemma PowerLossKeepsInv(w: World)
    requires Inv(w) && !w.phase.Off?
    ensures Inv(PowerOff(w))
  {
    PowerOffKeepsInv(w);
  }

  lemma StepKeepsInv(w: World, l: Label, w': World)
    requires Inv(w) && Next(w, l, w')
    ensures Inv(w')
  {
    hide Inv, MaybeRestoreOutcome, SnapshotOutcome, PruneOutcome;
    match l
    case PowerOn(next) => PowerOnKeepsInv(w, next, w');
    case PowerLoss => PowerLossKeepsInv(w);
    case ClusterWrites(live) => ClusterKeepsInv(w, live);
    case AddDeployment(id) => AddKeepsInv(w, id);
    case CollectDeployment(id) => CollectKeepsInv(w, id);
    case PlaceMarker => MarkerKeepsInv(w);
    case Bootstrapping(force, r) => BootstrapKeepsInv(w, w'.disk, w');
    case Resetting(r) => ResetKeepsInv(w, r, w');
    case Start => ServiceKeepsInv(w, Started);
    case Abort => ServiceKeepsInv(w, Idle);
    case RestoreStage(name, failed, r) => RestoreStageKeepsInv(w, name, failed, r, w');
    case SnapshotStage(r) => SnapshotStageKeepsInv(w, r, w');
    case GateStage(r, up) => GateKeepsInv(w, r, up, w'.disk, w');
    case PruneStage(head, torn, r) => PruneStageKeepsInv(w, head, torn, r, w');
    case CommitStage(r) => CommitKeepsInv(w, w'.disk, r, w');
    case AnnounceStage(r) => AnnounceKeepsInv(w, w'.disk, r, w');
  }

  /** The invariant holds in every world of every run. */
  lemma {:induction false} RunKeepsInv(ws: seq<World>, ls: seq<Label>, i: nat)
    requires Run(ws, ls) && i < |ws|
    ensures Inv(ws[i])
  {
    if i == 0 {
      InitInv(ws[0]);
    } else {
      RunKeepsInv(ws, ls, i - 1);
      StepKeepsInv(ws[i - 1], ls[i - 1], ws[i]);
    }
  }
}
