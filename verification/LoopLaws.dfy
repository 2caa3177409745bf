/** The tracking loop turn by turn: what a run of turns does, and what that comes to in all. */
module LoopLaws {
  import opened Kube
  import opened TrackerSpec
  import opened TrackingLoop
  import opened PassLaws
  import opened EventLaws

  /** One turn of the tracking loop, with what the lister and the handler return during it.
      `active` is None when listing the active pods fails. */
  datatype Turn<Listed> = Turn(
    wakeup: Wakeup,
    listing: seq<Listed>,
    answers: seq<Answer>,
    active: Option<seq<PodId>>,
    results: seq<CallResult>)
  {
    predicate WellFormed() {
      && |answers| == |listing|
      && (active.Some? ==> |results| == |active.value|)
    }
  }

  function ValueIds(listing: seq<PodValue>): set<PodId> {
    set p <- listing :: p.id
  }

  function TurnResult(t: Turn<PodValue>, watermark: Time): PassResult
    requires t.WellFormed()
  {
    match t.wakeup.branch
    case ContextDone => PassResult([], watermark)
    case StatusTimer => Pass(t.listing, watermark, t.answers)
    case CleanupTimer => PassResult(CleanupResult(t.active, ValueIds(t.listing), t.results), watermark)
  }

  /** The first `n` turns, one after the other. */
  function LoopTo(turns: seq<Turn<PodValue>>, watermark: Time, n: nat): PassResult
    requires forall k | 0 <= k < |turns| :: turns[k].WellFormed()
    requires n <= |turns|
  {
    if n == 0 then PassResult([], watermark)
    else
      var before := LoopTo(turns, watermark, n - 1);
      var last := TurnResult(turns[n - 1], before.watermark);
      PassResult(before.actions + last.actions, last.watermark)
  }

  function Wakeups<L>(turns: seq<Turn<L>>): (ws: seq<Wakeup>)
    ensures |ws| == |turns|
  {
    seq(|turns|, i requires 0 <= i < |turns| => turns[i].wakeup)
  }

  // ---------- What the status turns and the cleanup turns come to ----------

  /** The publications in a log, the pods whose events are fetched, and the pods cleanup is called for. */
  datatype Account = Account(published: seq<PodValue>, polled: seq<PodId>, cleaned: seq<PodId>) {
    function Plus(more: Account): Account {
      Account(published + more.published, polled + more.polled, cleaned + more.cleaned)
    }
  }

  function AccountIn(log: seq<Action>): Account {
    Account(Publications(log), Ids(log, EventFetch), Ids(log, Cleanup))
  }

  /** A status turn publishes the outcome of its pass and fetches the events of every listed pod; a
      cleanup turn calls for the dangling pods, if the active ones could be listed. */
  function AccountOf(t: Turn<PodValue>): Account
    requires t.WellFormed()
  {
    match t.wakeup.branch
    case ContextDone => Account([], [], [])
    case StatusTimer => Account(Outcome(t.listing, t.answers, |t.listing|), IdsUpTo(t.listing, |t.listing|), [])
    case CleanupTimer =>
      Account([], [], if t.active.None? then [] else Dangling(t.active.value, set p <- t.listing :: p.id))
  }

  function AccountTo(turns: seq<Turn<PodValue>>, n: nat): Account
    requires forall k | 0 <= k < |turns| :: turns[k].WellFormed()
    requires n <= |turns|
  {
    if n == 0 then Account([], [], []) else AccountTo(turns, n - 1).Plus(AccountOf(turns[n - 1]))
  }

  lemma CleanupTurnOnlyCleans(t: Turn<PodValue>, watermark: Time)
    requires t.WellFormed() && t.wakeup.branch != StatusTimer
    ensures forall a <- TurnResult(t, watermark).actions :: a.ListedActive? || a.CleanedUp? || a.LoggedFailure?
  {
    var actions := TurnResult(t, watermark).actions;
    if actions != [] {
      CleanupCallsTheDangling(t.active, ValueIds(t.listing), t.results);
      assert actions == [actions[0]] + actions[1..];
    }
  }

  lemma StatusTurnAccount(t: Turn<PodValue>, watermark: Time)
    requires t.WellFormed() && t.wakeup.branch == StatusTimer
    ensures AccountIn(TurnResult(t, watermark).actions) == AccountOf(t)
  {
    PassPublishes(t.listing, watermark, t.answers, |t.listing|);
    PassFetchesEveryPod(t.listing, watermark, t.answers, |t.listing|);
    PassNeverCleans(t.listing, watermark, t.answers, |t.listing|);
    NoIds(TurnResult(t, watermark).actions, Cleanup);
  }

  lemma OtherTurnAccount(t: Turn<PodValue>, watermark: Time)
    requires t.WellFormed() && t.wakeup.branch != StatusTimer
    ensures AccountIn(TurnResult(t, watermark).actions) == AccountOf(t)
  {
    CleanupTurnOnlyCleans(t, watermark);
    NoPublications(TurnResult(t, watermark).actions);
    NoIds(TurnResult(t, watermark).actions, EventFetch);
    if t.wakeup.branch == CleanupTimer {
      CleanupCallsTheDangling(t.active, ValueIds(t.listing), t.results);
    }
  }

  lemma TurnAccount(t: Turn<PodValue>, watermark: Time)
    requires t.WellFormed()
    ensures AccountIn(TurnResult(t, watermark).actions) == AccountOf(t)
  {
    if t.wakeup.branch == StatusTimer {
      StatusTurnAccount(t, watermark);
    } else {
      OtherTurnAccount(t, watermark);
    }
  }

  lemma AccountConcat(a: seq<Action>, b: seq<Action>)
    ensures AccountIn(a + b) == AccountIn(a).Plus(AccountIn(b))
  {
    PublicationsConcat(a, b);
    IdsConcat(a, b, EventFetch);
    IdsConcat(a, b, Cleanup);
  }

  /** Over any turns the publications and the event fetches are those of the status turns and the
      cleanup calls those of the cleanup turns, turn by turn. */
  lemma {:induction false} LoopAccount(turns: seq<Turn<PodValue>>, watermark: Time, n: nat)
    requires forall k | 0 <= k < |turns| :: turns[k].WellFormed()
    requires n <= |turns|
    ensures AccountIn(LoopTo(turns, watermark, n).actions) == AccountTo(turns, n)
  {
    if n > 0 {
      LoopAccount(turns, watermark, n - 1);
      var before := LoopTo(turns, watermark, n - 1);
      TurnAccount(turns[n - 1], before.watermark);
      AccountConcat(before.actions, TurnResult(turns[n - 1], before.watermark).actions);
    }
  }

  // ---------- Events ----------

  function CallsOf(t: Turn<PodValue>): seq<seq<Event>> {
    if t.wakeup.branch == StatusTimer then Batches(t.answers) else []
  }

  /** The batches of events that the status turns receive: one sequence of calls for the whole loop. */
  function CallsTo(turns: seq<Turn<PodValue>>, n: nat): seq<seq<Event>>
    requires n <= |turns|
  {
    if n == 0 then [] else CallsTo(turns, n - 1) + CallsOf(turns[n - 1])
  }

  /** `r` records what these calls record, and leaves the watermark they leave. */
  ghost predicate Hears(r: PassResult, calls: seq<seq<Event>>, start: Time) {
    match r
    case PassResult(actions, watermark) =>
      && watermark == WatermarkBefore(calls, start, |calls|)
      && Records(actions) == RecordedOver(calls, start, |calls|)
  }

  lemma TurnHears(t: Turn<PodValue>, watermark: Time)
    requires t.WellFormed()
    ensures Hears(TurnResult(t, watermark), CallsOf(t), watermark)
  {
    if t.wakeup.branch == StatusTimer {
      PassIsItsCalls(t.listing, watermark, t.answers, |t.listing|);
    } else {
      CleanupTurnOnlyCleans(t, watermark);
      NoRecords(TurnResult(t, watermark).actions);
    }
  }

  lemma HearsConcat(r: PassResult, a: seq<seq<Event>>, s: PassResult, b: seq<seq<Event>>, start: Time)
    requires Hears(r, a, start) && Hears(s, b, r.watermark)
    ensures Hears(PassResult(r.actions + s.actions, s.watermark), a + b, start)
  {
    RecordsConcat(r.actions, s.actions);
    CallsConcat(a, b, start, |b|);
  }

  /** To the watermark the whole loop is one sequence of calls: what it records and the watermark it
      leaves are those of all batches its status turns receive, in order. */
  lemma {:induction false} LoopIsItsCalls(turns: seq<Turn<PodValue>>, watermark: Time, n: nat)
    requires forall k | 0 <= k < |turns| :: turns[k].WellFormed()
    requires n <= |turns|
    ensures Hears(LoopTo(turns, watermark, n), CallsTo(turns, n), watermark)
  {
    if n > 0 {
      LoopIsItsCalls(turns, watermark, n - 1);
      var before := LoopTo(turns, watermark, n - 1);
      TurnHears(turns[n - 1], before.watermark);
      HearsConcat(before, CallsTo(turns, n - 1), TurnResult(turns[n - 1], before.watermark), CallsOf(turns[n - 1]),
                  watermark);
    }
  }
}
