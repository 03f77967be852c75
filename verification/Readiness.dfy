/** internal/kubeclient: waitAllReady, its pollers and its collector, in every interleaving. */
module Readiness {

  /** A polling goroutine: about to run its check, about to post, in its select, or gone. */
  datatype Poller = Checking | Posting | Pausing | Gone(posted: bool)

  /** The collecting loop. */
  datatype Collector = Collecting | AllReady | TimedOut(pending: nat)

  /** One scheduling decision, with the answer of the check it runs. */
  datatype Turn = Check(i: nat, ready: bool) | Post(i: nat) | Timer(i: nat) | Quit(i: nat) | Receive | GiveUp | Cancel

  /** The state of a wait over |pollers| checks, with the checks seen ready and the posts taken so far. */
  datatype Wait = Wait(
    pollers: seq<Poller>,
    channel: seq<nat>,
    remaining: nat,
    cancelled: bool,
    collector: Collector,
    seen: set<nat>,
    consumed: seq<nat>)

  function Verdict(remaining: nat): Collector {
    if remaining == 0 then AllReady else Collecting
  }

  function Begin(n: nat): Wait {
    Wait(seq(n, _ => Checking), [], n, false, Verdict(n), {}, [])
  }

  /** The channel has one place per check. */
  predicate Enabled(s: Wait, t: Turn) {
    match t
    case Check(i, _) => i < |s.pollers| && s.pollers[i].Checking?
    case Post(i) => i < |s.pollers| && s.pollers[i].Posting? && |s.channel| < |s.pollers|
    case Timer(i) => i < |s.pollers| && s.pollers[i].Pausing?
    case Quit(i) => i < |s.pollers| && s.pollers[i].Pausing? && s.cancelled
    case Receive => s.collector.Collecting? && s.channel != [] && s.remaining > 0
    case GiveUp => s.collector.Collecting? && s.cancelled
    case Cancel => true
  }

  function Take(s: Wait, t: Turn): Wait
    requires Enabled(s, t)
  {
    match t
    case Check(i, ready) =>
      if ready then s.(pollers := s.pollers[i := Posting], seen := s.seen + {i})
      else s.(pollers := s.pollers[i := Pausing])
    case Post(i) => s.(pollers := s.pollers[i := Gone(true)], channel := s.channel + [i])
    case Timer(i) => s.(pollers := s.pollers[i := Checking])
    case Quit(i) => s.(pollers := s.pollers[i := Gone(false)])
    case Receive =>
      s.(channel := s.channel[1..], consumed := s.consumed + [s.channel[0]],
         remaining := s.remaining - 1, collector := Verdict(s.remaining - 1))
    case GiveUp => s.(collector := TimedOut(s.remaining))
    case Cancel => s.(cancelled := true)
  }

  /** A schedule played to its end; turns that are not enabled are lost. */
  function Play(s: Wait, turns: seq<Turn>): Wait {
    if turns == [] then s
    else
      var before := Play(s, turns[..|turns| - 1]);
      var t := turns[|turns| - 1];
      if Enabled(before, t) then Take(before, t) else before
  }

  // ---- the invariant ----

  function Posts(s: Wait): seq<nat> {
    s.consumed + s.channel
  }

  predicate Distinct(xs: seq<nat>) {
    forall i, j :: 0 <= i < j < |xs| ==> xs[i] != xs[j]
  }

  ghost predicate Inv(s: Wait) {
    && Distinct(Posts(s))
    && (forall i :: i in Posts(s) <==> 0 <= i < |s.pollers| && s.pollers[i] == Gone(true))
    && (forall i :: i in s.seen <==> 0 <= i < |s.pollers| && (s.pollers[i].Posting? || s.pollers[i] == Gone(true)))
    && s.remaining + |s.consumed| == |s.pollers|
    && (s.collector.Collecting? <==> s.collector == Verdict(s.remaining) && s.remaining > 0)
    && (s.collector.AllReady? <==> s.remaining == 0)
    && (s.collector.TimedOut? ==> s.cancelled && s.collector.pending == s.remaining)
    && (forall i :: 0 <= i < |s.pollers| && s.pollers[i] == Gone(false) ==> s.cancelled)
  }

  lemma BeginInv(n: nat)
    ensures Inv(Begin(n))
  {}

  lemma PostKeepsInv(s: Wait, i: nat)
    requires Inv(s) && Enabled(s, Post(i))
    ensures Inv(Take(s, Post(i)))
  {
    assert i !in Posts(s);
    assert Posts(Take(s, Post(i))) == Posts(s) + [i];
  }

  lemma ReceiveKeepsInv(s: Wait)
    requires Inv(s) && Enabled(s, Receive)
    ensures Inv(Take(s, Receive))
  {
    assert Posts(Take(s, Receive)) == Posts(s);
  }

  /** A check, a timer or a farewell moves one goroutine. */
  lemma MoveKeepsInv(s: Wait, t: Turn)
    requires Inv(s) && Enabled(s, t) && (t.Check? || t.Timer? || t.Quit?)
    ensures Inv(Take(s, t))
  {
    assert Posts(Take(s, t)) == Posts(s);
  }

  lemma TakeKeepsInv(s: Wait, t: Turn)
    requires Inv(s) && Enabled(s, t)
    ensures Inv(Take(s, t)) && |Take(s, t).pollers| == |s.pollers|
  {
    match t
    case Post(i) => PostKeepsInv(s, i);
    case Receive => ReceiveKeepsInv(s);
    case GiveUp => assert Posts(Take(s, t)) == Posts(s);
    case Cancel => assert Posts(Take(s, t)) == Posts(s);
    case _ => MoveKeepsInv(s, t);
  }

  lemma {:induction false} PlayKeepsInv(n: nat, turns: seq<Turn>)
    ensures Inv(Play(Begin(n), turns)) && |Play(Begin(n), turns).pollers| == n
  {
    if turns == [] {
      BeginInv(n);
    } else {
      var k := |turns| - 1;
      PlayKeepsInv(n, turns[..k]);
      if Enabled(Play(Begin(n), turns[..k]), turns[k]) {
        TakeKeepsInv(Play(Begin(n), turns[..k]), turns[k]);
      }
    }
  }

  /** A check counts as seen only because it was run and answered true. */
  lemma {:induction false} SeenWasObserved(n: nat, turns: seq<Turn>, i: nat)
    requires i in Play(Begin(n), turns).seen
    ensures Check(i, true) in turns
  {
    var k := |turns| - 1;
    var before := Play(Begin(n), turns[..k]);
    if i in before.seen {
      SeenWasObserved(n, turns[..k], i);
    } else {
      assert turns[k] == Check(i, true);
    }
  }

  /** Distinct numbers below n are n in number exactly when none is missing. */
  lemma {:induction false} Pigeonhole(xs: seq<nat>, n: nat)
    requires Distinct(xs) && forall x :: x in xs ==> x < n
    ensures |xs| <= n
    ensures |xs| == n <==> forall i :: 0 <= i < n ==> i in xs
  {
    assert xs == [] || xs[0] in xs;
    if n == 0 {
    } else if k :| 0 <= k < |xs| && xs[k] == n - 1 {
      var rest := xs[..k] + xs[k + 1..];
      forall x | x in rest
        ensures x < n - 1
      {
        assert x in xs && x != xs[k];
      }
      Pigeonhole(rest, n - 1);
      assert forall x :: x in xs <==> x in rest || x == n - 1;
    } else {
      assert n - 1 !in xs;
      Pigeonhole(xs, n - 1);
    }
  }

  /** waitAllReady returns nil only when every check was observed true at least once, and then every goroutine has
      posted and gone: none is left behind. */
  lemma AllReadyMeansAllSeen(n: nat, turns: seq<Turn>)
    requires Play(Begin(n), turns).collector.AllReady?
    ensures forall i :: 0 <= i < n ==> Check(i, true) in turns
    ensures Play(Begin(n), turns).pollers == seq(n, _ => Gone(true))
    ensures Play(Begin(n), turns).channel == []
  {
    var s := Play(Begin(n), turns);
    PlayKeepsInv(n, turns);
    Pigeonhole(Posts(s), n);
    forall i | 0 <= i < n
      ensures s.pollers[i] == Gone(true) && Check(i, true) in turns
    {
      PostsCover(s, i);
      SeenWasObserved(n, turns, i);
    }
  }

  lemma PostsCover(s: Wait, i: nat)
    requires Inv(s) && s.remaining == 0 && i < |s.pollers|
    ensures i in Posts(s)
  {
    Pigeonhole(Posts(s), |s.pollers|);
  }

  /** The collector never waits for a post that nobody is going to make: with an empty channel and no cancellation
      some goroutine has not left. */
  lemma CollectorNeverStarves(n: nat, turns: seq<Turn>)
    requires var s := Play(Begin(n), turns); s.collector.Collecting? && s.channel == [] && !s.cancelled
    ensures var s := Play(Begin(n), turns); exists i :: 0 <= i < |s.pollers| && !s.pollers[i].Gone?
  {
    var s := Play(Begin(n), turns);
    PlayKeepsInv(n, turns);
    Pigeonhole(Posts(s), n);
    var i :| 0 <= i < n && i !in Posts(s);
    assert !s.pollers[i].Gone?;
  }

  /** On a timeout the error names exactly the posts not consumed, and the context was cancelled. */
  lemma TimeoutCounts(n: nat, turns: seq<Turn>)
    requires Play(Begin(n), turns).collector.TimedOut?
    ensures Play(Begin(n), turns).collector.pending == n - |Play(Begin(n), turns).consumed| > 0
    ensures Play(Begin(n), turns).cancelled
  {
    PlayKeepsInv(n, turns);
  }

  /** A goroutine that has seen its check pass is never blocked on the channel, whatever the collector does. */
  lemma PostNeverBlocks(n: nat, turns: seq<Turn>, i: nat)
    requires i < |Play(Begin(n), turns).pollers| && Play(Begin(n), turns).pollers[i].Posting?
    ensures Enabled(Play(Begin(n), turns), Post(i))
  {
    var s := Play(Begin(n), turns);
    PlayKeepsInv(n, turns);
    Pigeonhole(Posts(s), n);
    assert i !in Posts(s);
  }

  /** The turns that see poller i out once the context is cancelled. */
  function Farewell(s: Wait, i: nat): (turns: seq<Turn>)
    requires i < |s.pollers|
    ensures forall t :: t in turns ==> !t.Receive? && !t.GiveUp?
  {
    match s.pollers[i]
    case Checking => [Check(i, false), Quit(i)]
    case Posting => [Post(i)]
    case Pausing => [Quit(i)]
    case Gone(_) => []
  }

  lemma PlayAppend(s: Wait, turns: seq<Turn>, t: Turn)
    ensures Play(s, turns + [t]) == if Enabled(Play(s, turns), t) then Take(Play(s, turns), t) else Play(s, turns)
  {}

  /** A wait over n checks after the first k turns of a schedule. */
  function Played(n: nat, schedule: seq<Turn>, k: nat): Wait
    requires k <= |schedule|
  {
    Play(Begin(n), schedule[..k])
  }

  lemma PlayNext(n: nat, schedule: seq<Turn>, used: nat)
    requires used < |schedule|
    ensures var s := Played(n, schedule, used);
            Played(n, schedule, used + 1) ==
            if Enabled(s, schedule[used]) then Take(s, schedule[used]) else s
  {
    assert schedule[..used] + [schedule[used]] == schedule[..used + 1];
    PlayAppend(Begin(n), schedule[..used], schedule[used]);
  }

  lemma FarewellWorks(n: nat, turns: seq<Turn>, i: nat)
    requires i < n && Play(Begin(n), turns).cancelled
    ensures |Play(Begin(n), turns).pollers| == n
    ensures var s := Play(Begin(n), turns);
            var s' := Play(Begin(n), turns + Farewell(s, i));
            && s'.cancelled && |s'.pollers| == n && s'.pollers[i].Gone?
            && forall j :: 0 <= j < n && j != i ==> s'.pollers[j] == s.pollers[j]
  {
    var s := Play(Begin(n), turns);
    PlayKeepsInv(n, turns);
    match s.pollers[i]
    case Checking =>
      PlayAppend(Begin(n), turns, Check(i, false));
      PlayAppend(Begin(n), turns + [Check(i, false)], Quit(i));
      assert turns + [Check(i, false)] + [Quit(i)] == turns + Farewell(s, i);
    case Posting =>
      PostNeverBlocks(n, turns, i);
      PlayAppend(Begin(n), turns, Post(i));
    case Pausing =>
      PlayAppend(Begin(n), turns, Quit(i));
    case Gone(_) =>
      assert turns + [] == turns;
  }

  /** After cancellation every goroutine can finish, without any further help from the collector:
      the first k of them are seen out one by one. */
  lemma {:induction false} EveryoneCanLeave(n: nat, turns: seq<Turn>, k: nat) returns (more: seq<Turn>)
    requires k <= n && Play(Begin(n), turns).cancelled
    ensures Play(Begin(n), turns + more).cancelled && |Play(Begin(n), turns + more).pollers| == n
    ensures forall i :: 0 <= i < k ==> Play(Begin(n), turns + more).pollers[i].Gone?
    ensures forall t :: t in more ==> !t.Receive? && !t.GiveUp?
  {
    hide Play, Farewell, Inv;
    PlayKeepsInv(n, turns);
    if k == 0 {
      more := [];
      assert turns + more == turns;
    } else {
      var earlier := EveryoneCanLeave(n, turns, k - 1);
      var all := turns + earlier;
      FarewellWorks(n, all, k - 1);
      more := earlier + Farewell(Play(Begin(n), all), k - 1);
      assert turns + more == all + Farewell(Play(Begin(n), all), k - 1);
    }
  }

  // ---- deciding ----

  /** A verdict is final. */
  lemma {:induction false} DecidedStays(n: nat, turns: seq<Turn>, k: nat)
    requires k <= |turns| && !Play(Begin(n), turns[..k]).collector.Collecting?
    ensures Play(Begin(n), turns).collector == Play(Begin(n), turns[..k]).collector
  {
    if k == |turns| {
      assert turns[..k] == turns;
    } else {
      var before := turns[..|turns| - 1];
      assert before[..k] == turns[..k];
      DecidedStays(n, before, k);
    }
  }

  lemma VerdictStands(n: nat, schedule: seq<Turn>, used: nat)
    requires used <= |schedule|
    requires used == |schedule| || !Played(n, schedule, used).collector.Collecting?
    ensures Play(Begin(n), schedule).collector == Played(n, schedule, used).collector
    ensures Play(Begin(n), schedule).collector.AllReady? ==>
              forall i :: 0 <= i < n ==> Check(i, true) in schedule[..used]
  {
    hide Play;
    if used == |schedule| {
      assert schedule[..used] == schedule;
    } else {
      DecidedStays(n, schedule, used);
    }
    if Play(Begin(n), schedule).collector.AllReady? {
      AllReadyMeansAllSeen(n, schedule[..used]);
    }
  }

  /** The turns that bring poller i to its post, its check passing the next time it is run. */
  function Arrival(s: Wait, i: nat): (turns: seq<Turn>)
    requires i < |s.pollers|
    ensures forall t :: t in turns ==> !t.Cancel? && !t.GiveUp?
  {
    match s.pollers[i]
    case Checking => [Check(i, true), Post(i)]
    case Posting => [Post(i)]
    case Pausing => [Timer(i), Check(i, true), Post(i)]
    case Gone(_) => []
  }

  lemma CheckAndPost(n: nat, turns: seq<Turn>, i: nat)
    requires var s := Play(Begin(n), turns); i < |s.pollers| && s.pollers[i].Checking?
    ensures var s, s' := Play(Begin(n), turns), Play(Begin(n), turns + [Check(i, true)] + [Post(i)]);
            s' == s.(pollers := s.pollers[i := Gone(true)], channel := s.channel + [i], seen := s.seen + {i})
  {
    var s := Play(Begin(n), turns);
    PlayAppend(Begin(n), turns, Check(i, true));
    PostNeverBlocks(n, turns + [Check(i, true)], i);
    PlayAppend(Begin(n), turns + [Check(i, true)], Post(i));
    assert s.pollers[i := Posting][i := Gone(true)] == s.pollers[i := Gone(true)];
  }

  lemma PostArrives(n: nat, turns: seq<Turn>, i: nat)
    requires var s := Play(Begin(n), turns); i < |s.pollers| && s.pollers[i].Posting?
    ensures var s, s' := Play(Begin(n), turns), Play(Begin(n), turns + [Post(i)]);
            s' == s.(pollers := s.pollers[i := Gone(true)], channel := s.channel + [i])
  {
    PostNeverBlocks(n, turns, i);
    PlayAppend(Begin(n), turns, Post(i));
  }

  lemma WakeCheckAndPost(n: nat, turns: seq<Turn>, i: nat)
    requires var s := Play(Begin(n), turns); i < |s.pollers| && s.pollers[i].Pausing?
    ensures var s, s' := Play(Begin(n), turns), Play(Begin(n), turns + [Timer(i)] + [Check(i, true)] + [Post(i)]);
            s' == s.(pollers := s.pollers[i := Gone(true)], channel := s.channel + [i], seen := s.seen + {i})
  {
    var s := Play(Begin(n), turns);
    PlayAppend(Begin(n), turns, Timer(i));
    hide Play;
    CheckAndPost(n, turns + [Timer(i)], i);
    assert s.pollers[i := Checking][i := Gone(true)] == s.pollers[i := Gone(true)];
  }

  lemma ArrivalWorks(n: nat, turns: seq<Turn>, i: nat)
    requires i < n && |Play(Begin(n), turns).pollers| == n && !Play(Begin(n), turns).cancelled
    ensures var s := Play(Begin(n), turns);
            var s' := Play(Begin(n), turns + Arrival(s, i));
            && !s'.cancelled && s'.collector == s.collector && s'.pollers == s.pollers[i := Gone(true)]
  {
    hide Play;
    var s := Play(Begin(n), turns);
    match s.pollers[i]
    case Checking =>
      CheckAndPost(n, turns, i);
      assert turns + [Check(i, true)] + [Post(i)] == turns + Arrival(s, i);
    case Posting =>
      PostArrives(n, turns, i);
    case Pausing =>
      WakeCheckAndPost(n, turns, i);
      assert turns + [Timer(i)] + [Check(i, true)] + [Post(i)] == turns + Arrival(s, i);
    case Gone(_) =>
      PlayKeepsInv(n, turns);
      assert turns + [] == turns;
  }

  /** The first k checks pass and are posted. */
  lemma {:induction false} EveryoneCanPost(n: nat, turns: seq<Turn>, k: nat) returns (more: seq<Turn>)
    requires k <= n && !Play(Begin(n), turns).cancelled
    ensures !Play(Begin(n), turns + more).cancelled && |Play(Begin(n), turns + more).pollers| == n
    ensures Play(Begin(n), turns + more).collector == Play(Begin(n), turns).collector
    ensures forall i :: 0 <= i < k ==> Play(Begin(n), turns + more).pollers[i] == Gone(true)
    ensures forall t :: t in more ==> !t.Cancel? && !t.GiveUp?
  {
    hide Play, Arrival, Inv;
    PlayKeepsInv(n, turns);
    if k == 0 {
      more := [];
      assert turns + more == turns;
    } else {
      var earlier := EveryoneCanPost(n, turns, k - 1);
      var all := turns + earlier;
      ArrivalWorks(n, all, k - 1);
      more := earlier + Arrival(Play(Begin(n), all), k - 1);
      assert turns + more == all + Arrival(Play(Begin(n), all), k - 1);
    }
  }

  lemma OnePostReceived(n: nat, turns: seq<Turn>)
    requires Play(Begin(n), turns).collector.Collecting?
    requires Play(Begin(n), turns).pollers == seq(n, _ => Gone(true))
    ensures var s, s' := Play(Begin(n), turns), Play(Begin(n), turns + [Receive]);
            && s'.pollers == s.pollers && s'.remaining < s.remaining
            && (s'.collector.Collecting? || s'.collector.AllReady?)
  {
    var s := Play(Begin(n), turns);
    PlayKeepsInv(n, turns);
    Pigeonhole(Posts(s), n);
    hide Inv, Distinct;
    PlayAppend(Begin(n), turns, Receive);
  }

  /** With every post made, the collector takes one after the other and answers. */
  lemma {:induction false} CollectorCanFinish(n: nat, turns: seq<Turn>) returns (more: seq<Turn>)
    requires Play(Begin(n), turns).collector.Collecting?
    requires Play(Begin(n), turns).pollers == seq(n, _ => Gone(true))
    ensures Play(Begin(n), turns + more).collector.AllReady?
    ensures forall t :: t in more ==> t.Receive?
    decreases Play(Begin(n), turns).remaining
  {
    hide Play;
    OnePostReceived(n, turns);
    if Play(Begin(n), turns + [Receive]).collector.Collecting? {
      var rest := CollectorCanFinish(n, turns + [Receive]);
      more := [Receive] + rest;
      assert turns + more == turns + [Receive] + rest;
    } else {
      more := [Receive];
    }
  }

  /** waitAllReady can always still return nil: however a wait that was not cancelled has gone so far, if from now on
      each check passes, it is posted, and the collector counts the posts down. */
  lemma CanStillSucceed(n: nat, turns: seq<Turn>) returns (more: seq<Turn>)
    requires Play(Begin(n), turns).collector.Collecting? && !Play(Begin(n), turns).cancelled
    ensures Play(Begin(n), turns + more).collector.AllReady?
    ensures forall t :: t in more ==> !t.Cancel? && !t.GiveUp?
  {
    hide Play;
    var posted := EveryoneCanPost(n, turns, n);
    assert Play(Begin(n), turns + posted).pollers == seq(n, _ => Gone(true));
    var received := CollectorCanFinish(n, turns + posted);
    more := posted + received;
    assert turns + more == turns + posted + received;
  }

  /** Once cancelled, the collector can answer at once, with the number of posts it has not seen. */
  lemma CancelEndsTheWait(n: nat, turns: seq<Turn>)
    requires Play(Begin(n), turns).collector.Collecting?
    ensures var s := Play(Begin(n), turns);
            var verdict := Play(Begin(n), turns + [Cancel] + [GiveUp]).collector;
            verdict.TimedOut? && verdict.pending == n - |s.consumed|
  {
    PlayKeepsInv(n, turns);
    PlayAppend(Begin(n), turns, Cancel);
    PlayAppend(Begin(n), turns + [Cancel], GiveUp);
  }

  // ---- the program ----

  /** The variables of waitAllReady: its goroutines, its channel and its counter. */
  class Waiter {
    var pollers: array<Poller>
    var passed: seq<nat>
    var remaining: nat
    var cancelled: bool
    var collector: Collector
    ghost var seen: set<nat>
    ghost var consumed: seq<nat>

    ghost function Value(): Wait
      reads this, pollers
    {
      Wait(pollers[..], passed, remaining, cancelled, collector, seen, consumed)
    }

    constructor (n: nat)
      ensures fresh(pollers) && pollers.Length == n
      ensures Value() == Begin(n)
    {
      pollers := new Poller[n](_ => Checking);
      passed, remaining, cancelled := [], n, false;
      collector := if n == 0 then AllReady else Collecting;
      seen, consumed := {}, [];
    }

    /** One more turn of a schedule. */
    method Advance(n: nat, schedule: seq<Turn>, used: nat)
      requires used < |schedule| && Value() == Played(n, schedule, used)
      modifies this`passed, this`remaining, this`cancelled, this`collector, this`seen, this`consumed, pollers
      ensures Value() == Played(n, schedule, used + 1)
    {
      PlayNext(n, schedule, used);
      hide Played, Play, Take, Enabled, Begin;
      TakeTurn(schedule[used]);
    }

    /** One turn of one goroutine, of the collector, or of the context. */
    method TakeTurn(t: Turn)
      modifies this`passed, this`remaining, this`cancelled, this`collector, this`seen, this`consumed, pollers
      ensures Value() == if old(Enabled(Value(), t)) then old(Take(Value(), t)) else old(Value())
    {
      ghost var before := pollers[..];
      match t {
        case Check(i, ready) =>
          if i < pollers.Length && pollers[i].Checking? {
            pollers[i] := if ready then Posting else Pausing;
            if ready {
              seen := seen + {i};
            }
            assert pollers[..] == before[i := pollers[i]];
          }
        case Post(i) =>
          if i < pollers.Length && pollers[i].Posting? && |passed| < pollers.Length {
            passed := passed + [i];
            pollers[i] := Gone(true);
            assert pollers[..] == before[i := pollers[i]];
          }
        case Timer(i) =>
          if i < pollers.Length && pollers[i].Pausing? {
            pollers[i] := Checking;
            assert pollers[..] == before[i := pollers[i]];
          }
        case Quit(i) =>
          if i < pollers.Length && pollers[i].Pausing? && cancelled {
            pollers[i] := Gone(false);
            assert pollers[..] == before[i := pollers[i]];
          }
        case Receive =>
          if collector.Collecting? && passed != [] && remaining > 0 {
            consumed := consumed + [passed[0]];
            passed := passed[1..];
            remaining := remaining - 1;
            if remaining == 0 {
              collector := AllReady;
            }
          }
        case GiveUp =>
          if collector.Collecting? && cancelled {
            collector := TimedOut(remaining);
          }
        case Cancel =>
          cancelled := true;
      }
    }
  }

  /** waitAllReady under a schedule: it returns as soon as the collector has decided, with the verdict that the whole
      schedule leads to. */
  method WaitAllReady(n: nat, schedule: seq<Turn>) returns (verdict: Collector, used: nat)
    ensures used <= |schedule| && verdict == Played(n, schedule, used).collector
    ensures verdict.AllReady? ==> forall i :: 0 <= i < n ==> Check(i, true) in schedule[..used]
    ensures verdict.Collecting? ==> used == |schedule|
    ensures verdict == Play(Begin(n), schedule).collector
    ensures used > 0 ==> Played(n, schedule, used - 1).collector.Collecting?
  {
    var w := new Waiter(n);
    used := 0;
    assert w.Value() == Played(n, schedule, 0);
    hide Played, Play, Take, Enabled, Begin, Verdict;
    while used < |schedule| && w.collector.Collecting?
      invariant used <= |schedule| && fresh(w) && fresh(w.pollers)
      invariant w.Value() == Played(n, schedule, used)
      invariant used > 0 ==> Played(n, schedule, used - 1).collector.Collecting?
    {
      w.Advance(n, schedule, used);
      used := used + 1;
    }
    verdict := w.collector;
    VerdictStands(n, schedule, used);
  }

  /** WaitForControlPlane's four checks. */
  function ControlPlaneChecks(nodeName: string): seq<string> {
    ["node/" + nodeName, "pod/kube-apiserver-" + nodeName, "pod/kube-controller-manager-" + nodeName,
     "pod/kube-scheduler-" + nodeName]
  }

  /** The names of the checks a schedule saw answered true. */
  function SeenReady(checks: seq<string>, schedule: seq<Turn>): set<string> {
    set i | 0 <= i < |checks| && Check(i, true) in schedule :: checks[i]
  }

  method WaitForControlPlane(nodeName: string, schedule: seq<Turn>) returns (ok: bool)
    ensures ok ==> {"node/" + nodeName, "pod/kube-apiserver-" + nodeName, "pod/kube-controller-manager-" + nodeName,
                    "pod/kube-scheduler-" + nodeName} <= SeenReady(ControlPlaneChecks(nodeName), schedule)
    ensures ok <==> Play(Begin(4), schedule).collector.AllReady?
  {
    var checks := ControlPlaneChecks(nodeName);
    var verdict, used := WaitAllReady(|checks|, schedule);
    ok := verdict.AllReady?;
    if ok {
      forall i | 0 <= i < |checks|
        ensures checks[i] in SeenReady(checks, schedule)
      {
        assert Check(i, true) in schedule[..used];
      }
      assert checks[0] in SeenReady(checks, schedule) && checks[1] in SeenReady(checks, schedule);
      assert checks[2] in SeenReady(checks, schedule) && checks[3] in SeenReady(checks, schedule);
    }
  }
}
