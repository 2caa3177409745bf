/** The two timers of the tracking loop. A wakeup is one turn of the select: the branch it took and
    when, and, once the work of that branch is done, when its timer was armed again and when that
    timer fires. */
module TrackingLoop {
  import opened Kube

  const STATUS_UPDATES_INTERVAL: Time := 5_000_000_000
  const CLEANUP_INTERVAL: Time := 300_000_000_000

  datatype Branch = ContextDone | StatusTimer | CleanupTimer

  datatype Wakeup = Wakeup(branch: Branch, at: Time, rearmed: Time, fires: Time)

  /** When the loop returns to the select, when each timer fires, and when the context is cancelled,
      if ever. */
  datatype Timers = Timers(now: Time, statusFires: Time, cleanupFires: Time, cancelled: Option<Time>)

  function Interval(b: Branch): Time
    requires b != ContextDone
  {
    if b == StatusTimer then STATUS_UPDATES_INTERVAL else CLEANUP_INTERVAL
  }

  function Fires(t: Timers, b: Branch): Time
    requires b != ContextDone
  {
    if b == StatusTimer then t.statusFires else t.cleanupFires
  }

  function Other(b: Branch): Branch
    requires b != ContextDone
  {
    if b == StatusTimer then CleanupTimer else StatusTimer
  }

  /** A timer fires no earlier than its interval after it is armed. */
  predicate Armed(t: Timers) {
    && t.statusFires >= t.now + STATUS_UPDATES_INTERVAL
    && t.cleanupFires >= t.now + CLEANUP_INTERVAL
  }

  predicate Ready(t: Timers, b: Branch, at: Time) {
    match b
    case ContextDone => t.cancelled.Some? && t.cancelled.value <= at
    case _ => Fires(t, b) <= at
  }

  function Max(a: Time, b: Time): Time { if a >= b then a else b }

  function Min(a: Time, b: Time): Time { if a <= b then a else b }

  /** When the select takes a branch: it does not wait once one is ready. */
  function First(t: Timers): Time {
    var fired := Min(t.statusFires, t.cleanupFires);
    Max(t.now, if t.cancelled.Some? then Min(t.cancelled.value, fired) else fired)
  }

  /** Which of the branches that are ready the select takes is open. */
  predicate Takes(t: Timers, w: Wakeup) {
    && w.at == First(t) <= w.rearmed
    && Ready(t, w.branch, w.at)
    && (w.branch != ContextDone ==> w.fires >= w.rearmed + Interval(w.branch))
  }

  function After(t: Timers, w: Wakeup): Timers {
    match w.branch
    case ContextDone => t.(now := w.rearmed)
    case StatusTimer => t.(now := w.rearmed, statusFires := w.fires)
    case CleanupTimer => t.(now := w.rearmed, cleanupFires := w.fires)
  }

  predicate Feasible(t: Timers, run: seq<Wakeup>)
    decreases run
  {
    run != [] ==>
      && Takes(t, run[0])
      && (run[0].branch != ContextDone ==> Feasible(After(t, run[0]), run[1..]))
  }

  /** The passes a run performs, up to the first cancelled turn. */
  function Passes(run: seq<Wakeup>): seq<Wakeup> {
    if run == [] || run[0].branch == ContextDone then []
    else [run[0]] + Passes(run[1..])
  }

  /** How many turns a run takes before the first cancelled one. */
  function LiveTurns(run: seq<Wakeup>): (n: nat)
    ensures n <= |run|
    ensures forall k | 0 <= k < n :: run[k].branch != ContextDone
    ensures n < |run| ==> run[n].branch == ContextDone
  {
    if run == [] || run[0].branch == ContextDone then 0 else 1 + LiveTurns(run[1..])
  }

  lemma {:induction false} PassesAreTheLiveTurns(run: seq<Wakeup>)
    ensures Passes(run) == run[..LiveTurns(run)]
  {
    if run != [] && run[0].branch != ContextDone {
      PassesAreTheLiveTurns(run[1..]);
    }
  }

  /** The timers after the first `n` turns. */
  function TimersTo(t: Timers, run: seq<Wakeup>, n: nat): Timers
    requires n <= |run|
  {
    if n == 0 then t else After(TimersTo(t, run, n - 1), run[n - 1])
  }

  lemma {:induction false} TimersFromSecond(t: Timers, run: seq<Wakeup>, n: nat)
    requires 0 < n <= |run|
    ensures TimersTo(t, run, n) == TimersTo(After(t, run[0]), run[1..], n - 1)
  {
    if n > 1 {
      TimersFromSecond(t, run, n - 1);
    } else {
      assert TimersTo(t, run, 0) == t;
    }
  }

  /** Every turn up to the first cancelled one is taken as the timers left by the turns before it
      allow. */
  lemma {:induction false} FeasibleTurnByTurn(t: Timers, run: seq<Wakeup>, k: nat)
    requires Feasible(t, run) && k <= LiveTurns(run) && k < |run|
    ensures Takes(TimersTo(t, run, k), run[k])
    decreases run
  {
    if k > 0 {
      FeasibleTurnByTurn(After(t, run[0]), run[1..], k - 1);
      TimersFromSecond(t, run, k);
    }
  }

  /** The select never sleeps through a branch that is ready, and takes one that is. */
  lemma FirstIsTheFirstReady(t: Timers, b: Branch, at: Time)
    ensures t.now <= First(t)
    ensures exists b :: Ready(t, b, First(t))
    ensures t.now <= at < First(t) ==> !Ready(t, b, at)
  {
    assert Ready(t, StatusTimer, First(t)) || Ready(t, CleanupTimer, First(t)) || Ready(t, ContextDone, First(t));
  }

  // ---------- Spacing ----------

  function OfBranch(passes: seq<Wakeup>, b: Branch): seq<Wakeup> {
    if passes == [] then []
    else (if passes[0].branch == b then [passes[0]] else []) + OfBranch(passes[1..], b)
  }

  lemma {:induction false} PassesStartAfter(t: Timers, run: seq<Wakeup>)
    requires Feasible(t, run)
    ensures forall p <- Passes(run) ::
      && p.branch != ContextDone
      && t.now <= p.at <= p.rearmed
      && Fires(t, p.branch) <= p.at
    decreases run
  {
    if run != [] && run[0].branch != ContextDone {
      PassesStartAfter(After(t, run[0]), run[1..]);
    }
  }

  /** However the select chooses, passes never overlap, and two passes of one kind are at least
      that kind's interval apart, counted from the end of the first. */
  lemma {:induction false} PassesNeverOverlap(t: Timers, run: seq<Wakeup>, i: nat, j: nat)
    requires Feasible(t, run)
    requires i < j < |Passes(run)|
    ensures Passes(run)[i].rearmed <= Passes(run)[j].at
    ensures Passes(run)[i].branch == Passes(run)[j].branch && Passes(run)[i].branch != ContextDone ==>
      Passes(run)[i].rearmed + Interval(Passes(run)[i].branch) <= Passes(run)[j].at
    decreases run
  {
    if i == 0 {
      PassesStartAfter(After(t, run[0]), run[1..]);
      assert Passes(run)[j] == Passes(run[1..])[j - 1];
    } else {
      PassesNeverOverlap(After(t, run[0]), run[1..], i - 1, j - 1);
    }
  }

  lemma {:induction false} NthAfterFirst(t: Timers, run: seq<Wakeup>, b: Branch, n: nat)
    requires b != ContextDone && Feasible(t, run)
    requires n < |OfBranch(Passes(run), b)|
    ensures OfBranch(Passes(run), b)[n].branch == b
    ensures OfBranch(Passes(run), b)[n].at >= Fires(t, b) + n * Interval(b)
    decreases run
  {
    var rest := After(t, run[0]);
    assert Passes(run)[1..] == Passes(run[1..]);
    if run[0].branch != b {
      NthAfterFirst(rest, run[1..], b, n);
    } else if n > 0 {
      NthAfterFirst(rest, run[1..], b, n - 1);
      assert n * Interval(b) == (n - 1) * Interval(b) + Interval(b);
    }
  }

  /** The n-th pass of a kind, counting from one, starts no earlier than n intervals after the
      loop did. */
  lemma NthPassIsSpaced(t: Timers, run: seq<Wakeup>, b: Branch, n: nat)
    requires b != ContextDone && Armed(t) && Feasible(t, run)
    requires 1 <= n <= |OfBranch(Passes(run), b)|
    ensures OfBranch(Passes(run), b)[n - 1].at >=
      t.now + n * (if b == StatusTimer then 5_000_000_000 else 300_000_000_000)
  {
    NthAfterFirst(t, run, b, n - 1);
    assert n * Interval(b) == (n - 1) * Interval(b) + Interval(b);
  }

  // ---------- Cancellation ----------

  /** Once the context-done branch is taken nothing that follows in the run starts a pass. */
  lemma {:induction false} CancelledRunIsCut(run: seq<Wakeup>, k: nat)
    requires k < |run| && run[k].branch == ContextDone
    ensures Passes(run) == Passes(run[..k])
  {
    if k > 0 && run[0].branch != ContextDone {
      CancelledRunIsCut(run[1..], k - 1);
      assert run[..k][1..] == run[1..][..k - 1];
    }
  }

  /** The turn starts a pass after the context is cancelled. */
  predicate Late(t: Timers, w: Wakeup) {
    w.branch != ContextDone && t.cancelled.Some? && t.cancelled.value < w.at
  }

  /** A pass of a kind can start late exactly when the loop returns to the select after the
      cancellation and finds that timer fired already. */
  lemma LateExactlyWhenFired(t: Timers, b: Branch)
    requires b != ContextDone && t.cancelled.Some?
    ensures (exists w: Wakeup :: w.branch == b && Takes(t, w) && Late(t, w)) <==>
      t.cancelled.value < t.now && Fires(t, b) <= t.now
  {
    if t.cancelled.value < t.now && Fires(t, b) <= t.now {
      var w := Wakeup(b, t.now, t.now, t.now + Interval(b));
      assert Takes(t, w) && Late(t, w);
    }
  }

  /** A late pass starts as soon as the pass before it is over, and is of the other kind. */
  lemma {:induction false} LatePassFollowsAtOnce(t: Timers, run: seq<Wakeup>, i: nat)
    requires Feasible(t, run) && 0 < i < |Passes(run)| && Late(t, Passes(run)[i])
    ensures Passes(run)[i].at == Passes(run)[i - 1].rearmed
    ensures Passes(run)[i - 1].branch != ContextDone && Passes(run)[i].branch == Other(Passes(run)[i - 1].branch)
    decreases run
  {
    if i > 1 {
      LatePassFollowsAtOnce(After(t, run[0]), run[1..], i - 1);
    }
  }

  /** For another to follow, a late pass must last for the whole interval of its neighbours. */
  lemma OvertakingNeedsALongPass(t: Timers, run: seq<Wakeup>, i: nat)
    requires Feasible(t, run) && 0 < i < |Passes(run)| - 1 && Late(t, Passes(run)[i])
    ensures Late(t, Passes(run)[i + 1])
    ensures Passes(run)[i - 1].branch == Passes(run)[i + 1].branch != ContextDone
    ensures Passes(run)[i].rearmed - Passes(run)[i].at >= Interval(Passes(run)[i + 1].branch)
  {
    PassesNeverOverlap(t, run, i, i + 1);
    PassesStartAfter(t, run);
    assert Passes(run)[i] in Passes(run) && Passes(run)[i + 1] in Passes(run);
    LatePassFollowsAtOnce(t, run, i);
    LatePassFollowsAtOnce(t, run, i + 1);
    PassesNeverOverlap(t, run, i - 1, i + 1);
  }

  /** So while every pass takes less than five seconds, a late pass is the last: at most one starts
      after the cancellation. */
  lemma ShortPassesOvertakeOnce(t: Timers, run: seq<Wakeup>, i: nat)
    requires Armed(t) && Feasible(t, run)
    requires forall p <- Passes(run) :: p.rearmed - p.at < 5_000_000_000
    requires i < |Passes(run)| && Late(t, Passes(run)[i])
    ensures 0 < i == |Passes(run)| - 1
  {
    if 0 < i < |Passes(run)| - 1 {
      assert Passes(run)[i] in Passes(run);
      OvertakingNeedsALongPass(t, run, i);
    }
  }

  /** Passes that go on and on, of the two kinds in turn, can keep overtaking the cancellation. */
  lemma {:induction false} LongPassesKeepOvertaking(t: Timers, b: Branch, n: nat) returns (run: seq<Wakeup>)
    requires b != ContextDone && t.cancelled.Some? && t.cancelled.value < t.now
    requires Fires(t, b) <= t.now && Fires(t, Other(b)) <= t.now + CLEANUP_INTERVAL
    ensures Feasible(t, run) && |Passes(run)| == n
    ensures forall p <- Passes(run) :: Late(t, p) && p.rearmed - p.at == CLEANUP_INTERVAL
    decreases n
  {
    if n == 0 {
      run := [];
    } else {
      var end := t.now + CLEANUP_INTERVAL;
      var w := Wakeup(b, t.now, end, end + Interval(b));
      var rest := LongPassesKeepOvertaking(After(t, w), Other(b), n - 1);
      run := [w] + rest;
      assert run[1..] == rest;
    }
  }

  /** From the start of the loop too: for every number there is a run with that many passes after
      the cancellation. */
  lemma CancellationMayBeOvertaken(start: Time, n: nat) returns (t: Timers, run: seq<Wakeup>)
    ensures t.now == start && Armed(t) && Feasible(t, run) && |Passes(run)| == n + 1
    ensures forall p <- Passes(run)[1..] :: Late(t, p)
  {
    var at := start + STATUS_UPDATES_INTERVAL;
    var end := at + CLEANUP_INTERVAL;
    t := Timers(start, at, start + CLEANUP_INTERVAL, Some(at + 1));
    var w := Wakeup(StatusTimer, at, end, end + STATUS_UPDATES_INTERVAL);
    var rest := LongPassesKeepOvertaking(After(t, w), CleanupTimer, n);
    run := [w] + rest;
    assert run[1..] == rest;
  }
}
