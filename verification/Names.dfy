/** Backup directory names: `<deployment>_<boot>`, and the two ways the program takes them apart again. */
module Names {

  const TMP_SUFFIX := ".tmp"
  const RESTORING_SUFFIX := ".restoring"

  /** Go's strings.HasPrefix. */
  predicate HasPrefix(s: string, prefix: string) {
    prefix <= s
  }

  /** Go's strings.HasSuffix. */
  predicate HasSuffix(s: string, suffix: string) {
    |suffix| <= |s| && s[|s| - |suffix|..] == suffix
  }

  /** The position of the first underscore, or the length of `s` when it has none. */
  function FirstUnderscore(s: string): (i: nat)
    ensures i <= |s|
    ensures '_' !in s[..i]
    ensures i < |s| ==> s[i] == '_'
  {
    if s == "" || s[0] == '_' then 0
    else
      var i := FirstUnderscore(s[1..]);
      assert s[..i + 1] == [s[0]] + s[1..][..i];
      i + 1
  }

  /** The part of `s` that strings.Cut(s, "_") returns as `before`. */
  function Before(s: string): string {
    s[..FirstUnderscore(s)]
  }

  /** The name a backup of this deployment and boot is stored under. */
  function Join(deployment: string, boot: string): string {
    deployment + "_" + boot
  }

  lemma FirstUnderscoreUnique(s: string, j: nat)
    requires j < |s| && s[j] == '_' && '_' !in s[..j]
    ensures FirstUnderscore(s) == j
  {}

  lemma CutAtFirst(d: string, rest: string)
    requires '_' !in d
    ensures FirstUnderscore(d + "_" + rest) == |d|
    ensures Before(d + "_" + rest) == d
  {
    var s := d + "_" + rest;
    assert s[..|d|] == d;
    FirstUnderscoreUnique(s, |d|);
  }

  /** Cutting a name at its first underscore gives the deployment back exactly when the deployment has none. */
  lemma CutInvertsJoin(d: string, b: string)
    ensures Before(Join(d, b)) == d <==> '_' !in d
  {
    if '_' !in d {
      CutAtFirst(d, b);
    }
  }

  /** Names of underscore-free deployments determine both halves. */
  lemma JoinInjective(d1: string, b1: string, d2: string, b2: string)
    requires '_' !in d1 && '_' !in d2
    requires Join(d1, b1) == Join(d2, b2)
    ensures d1 == d2 && b1 == b2
  {
    CutAtFirst(d1, b1);
    CutAtFirst(d2, b2);
    assert Join(d1, b1)[|d1| + 1..] == b1;
    assert Join(d2, b2)[|d2| + 1..] == b2;
  }

  /** For an underscore-free deployment the prefix test and the cut select the same names,
      even when one deployment id is a prefix of another. */
  lemma PrefixIsCut(d: string, n: string)
    requires '_' !in d
    requires '_' in n
    ensures HasPrefix(n, d + "_") <==> Before(n) == d
  {
    if HasPrefix(n, d + "_") {
      assert n == d + "_" + n[|d| + 1..];
      CutAtFirst(d, n[|d| + 1..]);
    }
    var i := FirstUnderscore(n);
    assert n[..|n|] == n;
    assert n[..i + 1] == Before(n) + "_";
  }

  /** The prefix test of LatestForDeployment and the cut of Prune agree on every name
      exactly when the deployment id has no underscore. */
  lemma GroupingsAgreeIff(d: string)
    ensures (forall n: string | '_' in n :: HasPrefix(n, d + "_") <==> Before(n) == d) <==> '_' !in d
  {
    if '_' !in d {
      forall n: string | '_' in n
        ensures HasPrefix(n, d + "_") <==> Before(n) == d
      {
        PrefixIsCut(d, n);
      }
    } else {
      var n := Join(d, "b");
      assert n[|d|] == '_';
      assert HasPrefix(n, d + "_");
      CutInvertsJoin(d, "b");
    }
  }

  lemma JoinHasUnderscore(d: string, b: string)
    ensures '_' in Join(d, b)
  {}

  /** A name carries an underscore-free suffix exactly when its boot id does. */
  lemma SuffixOfJoin(d: string, b: string, suffix: string)
    requires '_' !in suffix
    ensures HasSuffix(Join(d, b), suffix) <==> HasSuffix(b, suffix)
  {
    var n := Join(d, b);
    if |suffix| <= |b| {
      assert n[|n| - |suffix|..] == b[|b| - |suffix|..];
    } else if |suffix| <= |n| {
      var at := |n| - |suffix|;
      assert n[at..][|d| - at] == n[|d|] == '_';
    }
  }

  lemma TmpHasSuffix(n: string)
    ensures HasSuffix(n + TMP_SUFFIX, TMP_SUFFIX)
  {}
}
