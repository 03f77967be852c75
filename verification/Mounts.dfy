/** cmd/nanok8s/reset.go, unmountKubeletMounts: which mounts below the kubelet directory are detached, and when. */
module Mounts {
  import opened FileSystem
  import opened Names
  import opened Sorting

  const KUBELET_DIR := "/var/lib/kubelet"

  // ---- strings.Split ----

  function SplitOn(s: string, c: char): (parts: seq<string>)
    ensures parts != []
  {
    if s == "" then [""]
    else
      var rest := SplitOn(s[1..], c);
      if s[0] == c then [""] + rest else [[s[0]] + rest[0]] + rest[1..]
  }

  function JoinOn(parts: seq<string>, c: char): string
    requires parts != []
  {
    if |parts| == 1 then parts[0] else parts[0] + [c] + JoinOn(parts[1..], c)
  }

  /** Splitting takes a text apart without loss. */
  lemma {:induction false} SplitLosesNothing(s: string, c: char)
    ensures JoinOn(SplitOn(s, c), c) == s
    ensures forall i :: 0 <= i < |SplitOn(s, c)| ==> c !in SplitOn(s, c)[i]
  {
    if s != "" {
      SplitLosesNothing(s[1..], c);
      var rest := SplitOn(s[1..], c);
      var parts := SplitOn(s, c);
      assert s == [s[0]] + s[1..];
      if s[0] == c {
        assert parts[1..] == rest;
      } else {
        assert parts[1..] == rest[1..];
      }
    }
  }

  /** The first separator ends the first part. */
  lemma {:induction false} SplitFirst(first: string, rest: string, c: char)
    requires c !in first
    ensures SplitOn(first + [c] + rest, c) == [first] + SplitOn(rest, c)
  {
    var s := first + [c] + rest;
    if first == "" {
      assert s[1..] == rest;
    } else {
      SplitFirst(first[1..], rest, c);
      assert s[1..] == first[1..] + [c] + rest;
      assert first == [first[0]] + first[1..];
    }
  }

  // ---- /proc/mounts ----

  /** One line of /proc/mounts: the device, the mount point, and whatever else the kernel prints. */
  datatype Mount = Mount(device: string, point: string, options: string) {
    /** The kernel escapes blanks and line ends inside its fields. */
    predicate Escaped() {
      && ' ' !in device && '\n' !in device
      && ' ' !in point && '\n' !in point
      && '\n' !in options
    }

    function Line(): string {
      device + [' '] + (point + [' '] + options)
    }
  }

  function Render(table: seq<Mount>): string {
    if table == [] then "" else table[0].Line() + ['\n'] + Render(table[1..])
  }

  /** Strictly below the kubelet directory. */
  predicate IsTarget(path: string) {
    HasPrefix(path, KUBELET_DIR + "/")
  }

  /** The mount points of a table that are targets, in its order. */
  function Below(table: seq<Mount>): seq<string> {
    if table == [] then []
    else (if IsTarget(table[0].point) then [table[0].point] else []) + Below(table[1..])
  }

  /** The second fields, of those lines that have one, that are targets. */
  function TargetsOf(lines: seq<string>): seq<string> {
    if lines == [] then []
    else
      var fields := SplitOn(lines[0], ' ');
      (if |fields| < 2 || !IsTarget(fields[1]) then [] else [fields[1]]) + TargetsOf(lines[1..])
  }

  /** The paths to detach, each as often as the table has it. */
  function ToDetach(raw: string): multiset<string> {
    multiset(TargetsOf(SplitOn(raw, '\n')))
  }

  lemma {:induction false} TargetsAppend(lines: seq<string>, line: string)
    ensures TargetsOf(lines + [line]) == TargetsOf(lines) + TargetsOf([line])
  {
    if lines == [] {
      assert [] + [line] == [line];
    } else {
      assert (lines + [line])[1..] == lines[1..] + [line];
      TargetsAppend(lines[1..], line);
    }
  }

  /** Reading a table back finds the targets of the table, for every table. */
  lemma {:induction false} TargetsOfTable(table: seq<Mount>)
    requires forall m :: m in table ==> m.Escaped()
    ensures TargetsOf(SplitOn(Render(table), '\n')) == Below(table)
  {
    if table == [] {
      assert SplitOn("", ' ') == [""];
    } else {
      var m := table[0];
      var line := m.Line();
      assert m in table;
      SplitFirst(line, Render(table[1..]), '\n');
      SplitFirst(m.device, m.point + [' '] + m.options, ' ');
      SplitFirst(m.point, m.options, ' ');
      assert m.device + [' '] + (m.point + [' '] + m.options) == line;
      assert ([line] + SplitOn(Render(table[1..]), '\n'))[1..] == SplitOn(Render(table[1..]), '\n');
      TargetsOfTable(table[1..]);
    }
  }

  /** How often a path is a target: as often as it is mounted, or never. */
  lemma {:induction false} BelowCounts(table: seq<Mount>, p: string)
    ensures multiset(Below(table))[p] == if IsTarget(p) then multiset(Points(table))[p] else 0
  {
    if table != [] {
      BelowCounts(table[1..], p);
    }
  }

  function Points(table: seq<Mount>): seq<string> {
    if table == [] then [] else [table[0].point] + Points(table[1..])
  }

  // ---- the order ----

  /** Go's `<` on strings. */
  predicate LexLess(a: string, b: string) {
    b != "" && (a == "" || a[0] < b[0] || (a[0] == b[0] && LexLess(a[1..], b[1..])))
  }

  /** The order of sort.Reverse(sort.StringSlice(...)). */
  predicate LaterFirst(a: string, b: string) {
    LexLess(b, a)
  }

  lemma {:induction false} LexAsymmetric(a: string, b: string)
    requires LexLess(a, b)
    ensures !LexLess(b, a)
  {
    if a != "" && a[0] == b[0] {
      LexAsymmetric(a[1..], b[1..]);
    }
  }

  lemma {:induction false} LexNotBeforeIsTransitive(a: string, b: string, c: string)
    requires !LexLess(a, b) && !LexLess(b, c)
    ensures !LexLess(a, c)
  {
    if b != "" && c != "" && a[0] == b[0] && b[0] == c[0] {
      LexNotBeforeIsTransitive(a[1..], b[1..], c[1..]);
    }
  }

  lemma LaterFirstIsWeakOrder()
    ensures WeakOrder(LaterFirst)
  {
    forall a, b | LaterFirst(a, b)
      ensures !LaterFirst(b, a)
    {
      LexAsymmetric(b, a);
    }
    forall a, b, c | !LaterFirst(b, a) && !LaterFirst(c, b)
      ensures !LaterFirst(c, a)
    {
      LexNotBeforeIsTransitive(a, b, c);
    }
  }

  /** The lexicographic order refines the prefix order. */
  lemma {:induction false} ProperPrefixIsLess(a: string, b: string)
    requires a < b
    ensures LexLess(a, b)
  {
    if a != "" {
      ProperPrefixIsLess(a[1..], b[1..]);
    }
  }

  /** `path` lies strictly inside the tree mounted at `root`. */
  predicate Inside(path: string, root: string) {
    HasPrefix(path, root + "/")
  }

  /** No mount point comes before one that lies inside it. */
  ghost predicate ChildrenFirst(paths: seq<string>) {
    forall i, j :: 0 <= i < j < |paths| ==> !Inside(paths[j], paths[i])
  }

  lemma SortedPutsChildrenFirst(paths: seq<string>)
    ensures ChildrenFirst(Sort(LaterFirst, paths))
  {
    var sorted := Sort(LaterFirst, paths);
    LaterFirstIsWeakOrder();
    SortSorts(LaterFirst, paths);
    forall i, j | 0 <= i < j < |sorted|
      ensures !Inside(sorted[j], sorted[i])
    {
      if Inside(sorted[j], sorted[i]) {
        ProperPrefixIsLess(sorted[i], sorted[j]);
      }
    }
  }

  // ---- the program ----

  function Succeeded(answers: seq<Outcome>): nat {
    if answers == [] then 0
    else Succeeded(answers[..|answers| - 1]) + if answers[|answers| - 1].Ok? then 1 else 0
  }

  function Detachments(paths: seq<string>): (deeds: seq<Deed>)
    ensures |deeds| == |paths|
  {
    seq(|paths|, i requires 0 <= i < |paths| => Detached(paths[i]))
  }

  /** The loop over the lines of /proc/mounts. */
  method CollectTargets(raw: string) returns (targets: seq<string>)
    ensures targets == TargetsOf(SplitOn(raw, '\n'))
  {
    var lines := SplitOn(raw, '\n');
    targets := [];
    for i := 0 to |lines|
      invariant targets == TargetsOf(lines[..i])
    {
      assert lines[..i + 1] == lines[..i] + [lines[i]];
      TargetsAppend(lines[..i], lines[i]);
      var fields := SplitOn(lines[i], ' ');
      if |fields| < 2 || !HasPrefix(fields[1], KUBELET_DIR + "/") {
        continue;
      }
      targets := targets + [fields[1]];
    }
    assert lines[..|lines|] == lines;
  }

  /** The loop over the targets: one attempt each, in order, whatever the earlier ones answered. */
  method DetachAll(h: Host, targets: seq<string>)
    returns (r: Outcome, attempted: seq<string>, unmounted: nat, ghost answers: seq<Outcome>)
    modifies h`deeds, h`faults
    ensures old(h.faults) + Faults(r.Crash?) <= h.faults
    ensures !r.Err?
    ensures h.deeds == old(h.deeds) + Detachments(attempted)
    ensures |attempted| <= |targets| && attempted == targets[..|attempted|]
    ensures r.Ok? ==> attempted == targets
    ensures |answers| == |attempted| && unmounted == Succeeded(answers)
    ensures r.Crash? <==> exists i :: 0 <= i < |answers| && answers[i].Crash?
  {
    r, attempted, unmounted, answers := Ok, [], 0, [];
    for i := 0 to |targets|
      invariant r.Ok? && attempted == targets[..i] && old(h.faults) <= h.faults
      invariant h.deeds == old(h.deeds) + Detachments(attempted)
      invariant |answers| == i && unmounted == Succeeded(answers)
      invariant forall j :: 0 <= j < i ==> !answers[j].Crash?
    {
      var answer := h.Detach(targets[i]);
      attempted := attempted + [targets[i]];
      assert Detachments(attempted) == Detachments(targets[..i]) + [Detached(targets[i])];
      answers := answers + [answer];
      assert answers[..i] == answers[..|answers| - 1];
      if answer.Crash? {
        assert answers[i].Crash?;
        return Crash, attempted, unmounted, answers;
      }
      if answer.Err? {
        continue;
      }
      unmounted := unmounted + 1;
    }
  }

  /** unmountKubeletMounts; `raw` is None when /proc/mounts cannot be read. Never fatal: it ends early only by a power
      loss. `attempted` lists the unmount calls made, `answers` what they answered. */
  method UnmountKubeletMounts(h: Host, raw: Option<string>)
    returns (r: Outcome, attempted: seq<string>, unmounted: nat, ghost answers: seq<Outcome>)
    modifies h`deeds, h`faults
    ensures old(h.faults) + Faults(r.Crash?) <= h.faults
    ensures !r.Err?
    ensures h.deeds == old(h.deeds) + Detachments(attempted)
    ensures forall p :: p in attempted ==> "/var/lib/kubelet/" <= p
    ensures raw.None? ==> r.Ok? && attempted == []
    ensures raw.Some? && r.Ok? ==> multiset(attempted) == ToDetach(raw.value)
    ensures raw.Some? ==> multiset(attempted) <= ToDetach(raw.value)
    ensures ChildrenFirst(attempted)
    ensures |answers| == |attempted| && unmounted == Succeeded(answers)
    ensures r.Crash? <==> exists i :: 0 <= i < |answers| && answers[i].Crash?
  {
    r, attempted, unmounted, answers := Ok, [], 0, [];
    if raw.None? {
      return;
    }
    var targets := CollectTargets(raw.value);
    var sorted := Sort(LaterFirst, targets);
    r, attempted, unmounted, answers := DetachAll(h, sorted);
    SortedPutsChildrenFirst(targets);
    PrefixCounts(sorted, |attempted|);
    forall p | p in attempted
      ensures "/var/lib/kubelet/" <= p
    {
      assert p in multiset(sorted) && p in targets;
      TargetsAreBelow(SplitOn(raw.value, '\n'), p);
    }
  }

  lemma {:induction false} TargetsAreBelow(lines: seq<string>, p: string)
    requires p in TargetsOf(lines)
    ensures "/var/lib/kubelet/" <= p
  {
    if p in TargetsOf(lines[1..]) {
      TargetsAreBelow(lines[1..], p);
    } else {
      assert KUBELET_DIR + "/" == "/var/lib/kubelet/";
    }
  }

  lemma PrefixCounts(xs: seq<string>, k: nat)
    requires k <= |xs|
    ensures multiset(xs[..k]) <= multiset(xs)
  {
    assert xs == xs[..k] + xs[k..];
  }

  /** For every mount table, a path is a target as often as it is mounted strictly below the kubelet directory. */
  lemma TargetsAreTheMountsBelow(table: seq<Mount>, p: string)
    requires forall m :: m in table ==> m.Escaped()
    ensures ToDetach(Render(table))[p]
            == if "/var/lib/kubelet/" <= p then multiset(Points(table))[p] else 0
  {
    TargetsOfTable(table);
    BelowCounts(table, p);
    assert KUBELET_DIR + "/" == "/var/lib/kubelet/";
  }
}
