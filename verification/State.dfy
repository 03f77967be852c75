/** internal/state: the metadata of the last healthy boot and the last lifecycle event. */
module State {
  import opened FileSystem

  /** The document a reader finds under a name. */
  function Lookup(dir: map<string, Doc>, name: string): Option<Doc> {
    if name in dir then Some(dir[name]) else None
  }

  /** The document goes into the temporary file, which is synced, closed and renamed. */
  method FillAndRename(h: Host, tmp: string, path: string, doc: Doc) returns (r: Outcome)
    requires tmp in h.stateDir && tmp != path
    modifies h`stateDir, h`faults
    ensures old(h.faults) + Faults(!r.Ok?) <= h.faults
    ensures r.Ok? ==> h.faults == old(h.faults)
    ensures r.Ok? ==> h.stateDir == (old(h.stateDir) - {tmp})[path := doc]
    ensures r.Err? ==> h.stateDir - {tmp} == old(h.stateDir) - {tmp}
    ensures r.Crash? ==>
      || h.stateDir - {tmp} == old(h.stateDir) - {tmp}
      || h.stateDir == (old(h.stateDir) - {tmp})[path := doc]
  {
    r := h.WriteTemp(tmp, doc);
    ghost var filled := h.stateDir;
    if r.Ok? {
      r := h.Answer();
    }
    if r.Ok? {
      r := h.Answer();
    }
    if r.Ok? {
      r := h.RenameState(tmp, path);
      assert filled - {tmp} == old(h.stateDir) - {tmp};
    }
  }

  /** Overwrites one of the two state files through a temporary sibling and a rename. One failing call leaves no
      temporary file behind. */
  method WriteAtomic(h: Host, path: string, doc: Doc) returns (r: Outcome)
    requires path == LAST_BOOT || path == LAST_EVENT
    modifies h`stateDir, h`faults
    ensures old(h.faults) + Faults(!r.Ok?) <= h.faults
    ensures r.Ok? ==> h.faults == old(h.faults)
    ensures r.Ok? ==> Lookup(h.stateDir, path) == Some(doc)
    ensures r.Err? ==> Lookup(h.stateDir, path) == old(Lookup(h.stateDir, path))
    ensures r.Crash? ==> Lookup(h.stateDir, path) in {old(Lookup(h.stateDir, path)), Some(doc)}
    ensures forall q :: q in {LAST_BOOT, LAST_EVENT} && q != path ==>
            Lookup(h.stateDir, q) == old(Lookup(h.stateDir, q))
    ensures !r.Crash? && h.faults <= old(h.faults) + 1 ==> h.stateDir.Keys <= old(h.stateDir).Keys + {path}
  {
    r := h.Answer();
    if !r.Ok? {
      return;
    }
    ghost var before := h.stateDir;
    var tmp;
    r, tmp := h.CreateTemp();
    AgreeOffKey(before, h.stateDir, tmp);
    if !r.Ok? {
      return;
    }
    ghost var created := h.stateDir;
    r := FillAndRename(h, tmp, path, doc);
    if h.stateDir - {tmp} == created - {tmp} {
      AgreeOffKey(created, h.stateDir, tmp);
    }
    assert forall q :: q in h.stateDir && q != tmp && q != path ==> q in before by {
      assert forall q :: q in created - {tmp} ==> q in before - {tmp};
      assert forall q :: q in h.stateDir && q != tmp ==> q in h.stateDir - {tmp};
    }
    if !r.Crash? {
      var cleanup := h.RemoveTemp(tmp);
      if cleanup.Crash? {
        r := Crash;
      }
    }
  }

  lemma AgreeOffKey(dir: map<string, Doc>, dir': map<string, Doc>, name: string)
    requires dir - {name} == dir' - {name}
    ensures forall q :: q != name ==> Lookup(dir, q) == Lookup(dir', q)
  {
    forall q | q != name
      ensures Lookup(dir, q) == Lookup(dir', q)
    {
      assert q in dir <==> q in dir - {name};
      assert q in dir' <==> q in dir' - {name};
      if q in dir {
        assert (dir - {name})[q] == dir[q];
        assert (dir' - {name})[q] == dir'[q];
      }
    }
  }

  method WriteLastBoot(h: Host, lb: LastBoot) returns (r: Outcome)
    requires h.Valid()
    modifies h`stateDir, h`faults
    ensures old(h.faults) + Faults(!r.Ok?) <= h.faults
    ensures r.Ok? ==> h.faults == old(h.faults)
    ensures h.Valid()
    ensures r.Ok? ==> h.OnDisk() == old(h.OnDisk()).(lastBoot := Some(lb))
    ensures r.Err? ==> h.OnDisk() == old(h.OnDisk())
    ensures r.Crash? ==> h.OnDisk() in {old(h.OnDisk()), old(h.OnDisk()).(lastBoot := Some(lb))}
  {
    ghost var before := h.stateDir;
    r := WriteAtomic(h, LAST_BOOT, BootDoc(lb));
    assert Lookup(h.stateDir, LAST_EVENT) == Lookup(before, LAST_EVENT);
  }

  method WriteLastEvent(h: Host, message: string) returns (r: Outcome)
    requires h.Valid()
    modifies h`stateDir, h`faults
    ensures old(h.faults) + Faults(!r.Ok?) <= h.faults
    ensures r.Ok? ==> h.faults == old(h.faults)
    ensures h.Valid()
    ensures r.Ok? ==> h.OnDisk() == old(h.OnDisk()).(lastEvent := Some(message))
    ensures r.Err? ==> h.OnDisk() == old(h.OnDisk())
    ensures r.Crash? ==> h.OnDisk() in {old(h.OnDisk()), old(h.OnDisk()).(lastEvent := Some(message))}
  {
    ghost var before := h.stateDir;
    r := WriteAtomic(h, LAST_EVENT, EventDoc(message));
    assert Lookup(h.stateDir, LAST_BOOT) == Lookup(before, LAST_BOOT);
  }

  /** A missing record is an answer; a record that does not parse is an error. */
  method ReadLastBoot(h: Host) returns (r: Outcome, found: Option<LastBoot>)
    modifies h`faults
    ensures old(h.faults) + Faults(!r.Ok? && h.Valid()) <= h.faults
    ensures r.Ok? ==> h.faults == old(h.faults)
    ensures r.Ok? ==> found == h.OnDisk().lastBoot
    ensures r.Ok? ==> (found.None? <==> LAST_BOOT !in h.stateDir)
  {
    r := h.Answer();
    found := None;
    if r.Ok? && LAST_BOOT in h.stateDir {
      if h.stateDir[LAST_BOOT].BootDoc? {
        found := Some(h.stateDir[LAST_BOOT].lastBoot);
      } else {
        r := Err;
      }
    }
  }

  const API_SERVER_MANIFEST := "manifests/kube-apiserver.yaml"

  predicate ManifestPresent(live: Image) {
    Kubernetes in live && API_SERVER_MANIFEST in live[Kubernetes]
  }

  /** What state.Exists looks for. */
  predicate Recorded(d: Disk) {
    d.lastBoot.Some? || d.lastEvent.Some?
  }

  predicate Existing(d: Disk) {
    Recorded(d) || ManifestPresent(d.live)
  }

  /** The three places Exists probes, in its order. */
  datatype Place = StateFile(name: string) | ApiServerManifest

  const PLACES: seq<Place> := [StateFile(LAST_BOOT), StateFile(LAST_EVENT), ApiServerManifest]

  predicate Present(dir: map<string, Doc>, live: Image, p: Place) {
    match p
    case StateFile(name) => name in dir
    case ApiServerManifest => ManifestPresent(live)
  }

  method Exists(h: Host) returns (r: Outcome, exists': bool)
    requires h.Valid()
    modifies h`faults
    ensures h.faults == old(h.faults) + Faults(!r.Ok?)
    ensures r.Ok? ==> exists' == Existing(h.OnDisk())
    ensures r.Ok? ==>
              (exists' <==> "last-boot.json" in h.stateDir || "last-event" in h.stateDir
                            || (Kubernetes in h.live && "manifests/kube-apiserver.yaml" in h.live[Kubernetes]))
  {
    r, exists' := Ok, false;
    for i := 0 to |PLACES|
      invariant r == Ok && !exists' && h.faults == old(h.faults)
      invariant forall j :: 0 <= j < i ==> !Present(h.stateDir, h.live, PLACES[j])
    {
      r := h.Answer();
      if !r.Ok? {
        return;
      }
      if Present(h.stateDir, h.live, PLACES[i]) {
        assert PLACES[i] in [StateFile(LAST_BOOT), StateFile(LAST_EVENT), ApiServerManifest];
        return Ok, true;
      }
    }
    assert !Present(h.stateDir, h.live, PLACES[0]);
    assert !Present(h.stateDir, h.live, PLACES[1]);
    assert !Present(h.stateDir, h.live, PLACES[2]);
  }
}
