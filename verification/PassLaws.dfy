/** What one status pass asks and publishes, and what one cleanup pass calls, for any listing and any
    answers. */
module PassLaws {
  import opened Kube
  import opened TrackerSpec

  // ---------- Counting questions ----------

  lemma {:induction false} AskCountConcat(a: seq<Action>, b: seq<Action>, id: PodId)
    ensures AskCount(a + b, id) == AskCount(a, id) + AskCount(b, id)
  {
    if a == [] {
      assert a + b == b;
    } else {
      assert (a + b)[0] == a[0] && (a + b)[1..] == a[1..] + b;
      AskCountConcat(a[1..], b, id);
    }
  }

  lemma {:induction false} NeverAsked(log: seq<Action>, id: PodId)
    requires FetchedStatus(id) !in log
    ensures AskCount(log, id) == 0
  {
    if log != [] {
      assert log[0] in log;
      NeverAsked(log[1..], id);
    }
  }

  lemma {:induction false} AskedIsCounted(log: seq<Action>, id: PodId)
    ensures FetchedStatus(id) in log <==> AskCount(log, id) > 0
  {
    if log != [] {
      assert log == [log[0]] + log[1..];
      AskedIsCounted(log[1..], id);
    }
  }

  lemma VisitAsks(p: PodValue, watermark: Time, a: Answer, id: PodId)
    ensures AskCount(Visited(p, watermark, a), id) == if p.id == id && !Skipped(p) then 1 else 0
  {
    var front := [FetchedEvents(p.id)] + Admitted(a.events, watermark);
    var ask := if Skipped(p) then [] else [FetchedStatus(p.id)];
    var back := if StatusAfter(p, a).Some? then [Published(Refreshed(p, a))] else [];
    AdmittedAreRecords(a.events, watermark);
    assert Visited(p, watermark, a) == front + ask + back;
    NeverAsked(front, id);
    NeverAsked(back, id);
    AskCountConcat(front + ask, back, id);
    AskCountConcat(front, ask, id);
    assert ask != [] ==> ask[1..] == [];
  }

  ghost predicate DistinctIds(listing: seq<PodValue>) {
    forall i, j | 0 <= i < j < |listing| :: listing[i].id != listing[j].id
  }

  /** A pass asks the provider about a listed pod once if the pod is not skipped, else never. */
  lemma {:induction false} PassAsksOnce(listing: seq<PodValue>, watermark: Time, answers: seq<Answer>, n: nat, k: nat)
    requires |answers| == |listing| && n <= |listing| && k < |listing|
    requires DistinctIds(listing)
    ensures AskCount(PassTo(listing, watermark, answers, n).actions, listing[k].id) ==
      if k < n && !Skipped(listing[k]) then 1 else 0
  {
    if n > 0 {
      PassAsksOnce(listing, watermark, answers, n - 1, k);
      var before := PassTo(listing, watermark, answers, n - 1);
      VisitAsks(listing[n - 1], before.watermark, answers[n - 1], listing[k].id);
      AskCountConcat(before.actions, Visited(listing[n - 1], before.watermark, answers[n - 1]), listing[k].id);
    }
  }

  // ---------- What is published ----------

  /** The publications of the first `n` pods: an in-order selection of the listing, each pod with
      nothing but its status changed. */
  function Outcome(listing: seq<PodValue>, answers: seq<Answer>, n: nat): seq<PodValue>
    requires |answers| == |listing| && n <= |listing|
  {
    if n == 0 then []
    else
      Outcome(listing, answers, n - 1) + OutcomeOf(listing[n - 1], answers[n - 1])
  }

  lemma {:induction false} PassPublishes(listing: seq<PodValue>, watermark: Time, answers: seq<Answer>, n: nat)
    requires |answers| == |listing| && n <= |listing|
    ensures Publications(PassTo(listing, watermark, answers, n).actions) == Outcome(listing, answers, n)
  {
    if n > 0 {
      PassPublishes(listing, watermark, answers, n - 1);
      var before := PassTo(listing, watermark, answers, n - 1);
      var now := Visited(listing[n - 1], before.watermark, answers[n - 1]);
      VisitPublishes(listing[n - 1], before.watermark, answers[n - 1]);
      PublicationsConcat(before.actions, now);
    }
  }

  /** A publication always comes from a listed pod that is not skipped, and keeps its identity,
      spec, resource version and deletion mark. */
  lemma {:induction false} PublishedPodsWereLive(listing: seq<PodValue>, answers: seq<Answer>, n: nat, p: PodValue)
    requires |answers| == |listing| && n <= |listing|
    requires p in Outcome(listing, answers, n)
    ensures exists k | 0 <= k < n :: !Skipped(listing[k]) && p == listing[k].(status := p.status)
  {
    if p !in Outcome(listing, answers, n - 1) {
      assert StatusAfter(listing[n - 1], answers[n - 1]).Some?;
      assert !Skipped(listing[n - 1]) && p == listing[n - 1].(status := p.status);
    } else {
      PublishedPodsWereLive(listing, answers, n - 1, p);
    }
  }

  // ---------- The provider is lost ----------

  predicate LiveRunning(p: PodValue) {
    !Skipped(p) && p.status.phase == Running
  }

  predicate Lost(a: Answer) {
    a.reply.NotFound? || a.reply.Nil?
  }

  function LostOutcome(listing: seq<PodValue>, answers: seq<Answer>, n: nat): seq<PodValue>
    requires |answers| == |listing| && n <= |listing|
  {
    if n == 0 then []
    else
      LostOutcome(listing, answers, n - 1)
      + if LiveRunning(listing[n - 1])
        then [listing[n - 1].(status := LostStatus(listing[n - 1].status, answers[n - 1].now))]
        else []
  }

  lemma {:induction false} LostOutcomeIsTheOutcome(listing: seq<PodValue>, answers: seq<Answer>, n: nat)
    requires |answers| == |listing| && n <= |listing|
    requires forall k | 0 <= k < n :: Lost(answers[k])
    ensures Outcome(listing, answers, n) == LostOutcome(listing, answers, n)
  {
    if n > 0 {
      LostOutcomeIsTheOutcome(listing, answers, n - 1);
    }
  }

  lemma {:induction false} LostOutcomeHasFailed(listing: seq<PodValue>, answers: seq<Answer>, n: nat)
    requires |answers| == |listing| && n <= |listing|
    ensures forall p <- LostOutcome(listing, answers, n) ::
      p.status.phase == Failed && p.status.reason == REASON_NOT_FOUND
  {
    if n > 0 {
      LostOutcomeHasFailed(listing, answers, n - 1);
    }
  }

  /** When the provider knows nothing any more, a pass publishes exactly the live running pods, each
      once, in listing order, as failed and not found. */
  lemma LostPassPublishesTheLive(listing: seq<PodValue>, watermark: Time, answers: seq<Answer>)
    requires |answers| == |listing|
    requires forall a <- answers :: Lost(a)
    ensures Publications(Pass(listing, watermark, answers).actions) == LostOutcome(listing, answers, |listing|)
    ensures forall p <- Publications(Pass(listing, watermark, answers).actions) ::
      p.status.phase == Failed && p.status.reason == REASON_NOT_FOUND
  {
    PassPublishes(listing, watermark, answers, |listing|);
    LostOutcomeIsTheOutcome(listing, answers, |listing|);
    LostOutcomeHasFailed(listing, answers, |listing|);
  }

  /** The rewrite of a lost pod: failed and not found, every running container terminated with its
      start time and container ID, everything else as it was. */
  lemma LostRewrite(s: PodStatus, now: Time)
    ensures
      var r := LostStatus(s, now);
      var text := "The pod may have been deleted from the provider";
      && r == s.(phase := Phase.Failed, reason := "NotFound", message := text, containerStatuses := r.containerStatuses)
      && |r.containerStatuses| == |s.containerStatuses|
      && forall i | 0 <= i < |s.containerStatuses| ::
           var c := s.containerStatuses[i];
           r.containerStatuses[i] ==
             if c.state.running.None? then c
             else c.(state := ContainerState(c.state.waiting, None, Some(
               Termination(-137, "NotFound", text, c.state.running.value, now, c.containerID))))
  {
  }

  /** The rewrite leaves every container with at most one state exactly when none was running and
      waiting at once and the others had at most one state. */
  lemma LostRewriteIsExclusive(s: PodStatus, now: Time)
    ensures ExclusiveStatus(LostStatus(s, now)) <==>
      forall c <- s.containerStatuses ::
        if c.state.running.Some? then c.state.waiting.None? else Exclusive(c.state)
  {
    var r := LostStatus(s, now).containerStatuses;
    assert forall i | 0 <= i < |r| :: r[i] in r && s.containerStatuses[i] in s.containerStatuses;
    assert forall i | 0 <= i < |r| :: r[i] == LostContainer(s.containerStatuses[i], now);
  }

  // ---------- Pod by pod, in terms of fields ----------

  /** Each pod adds to the actions of a pass: its events are fetched and recorded, then, unless the
      pod is finished, refused by the provider or terminating, its status is fetched, then a status
      that was found, or the loss of a running pod, is published. */
  lemma PassPodByPod(listing: seq<PodValue>, watermark: Time, answers: seq<Answer>, n: nat)
    requires |answers| == |listing| && n < |listing|
    ensures
      var before, after := PassTo(listing, watermark, answers, n), PassTo(listing, watermark, answers, n + 1);
      var p, a := listing[n], answers[n];
      var live := p.status.phase !in {Phase.Succeeded, Phase.Failed} && p.status.reason != "ProviderFailed"
        && p.deletionTimestamp == None;
      after.actions == before.actions
        + ([FetchedEvents(p.id)] + Admitted(a.events, before.watermark)
           + (if live then [FetchedStatus(p.id)] else [])
           + if live && a.reply.Found? then [Published(p.(status := a.reply.status))]
             else if live && a.reply in {NotFound, Nil} && p.status.phase == Phase.Running
             then [Published(p.(status := LostStatus(p.status, a.now)))]
             else [])
  {
  }

  lemma {:induction false} OutcomeAbout(listing: seq<PodValue>, answers: seq<Answer>, n: nat, k: nat, q: PodValue)
    requires |answers| == |listing| && n <= |listing| && k < |listing| && DistinctIds(listing)
    requires q.id == listing[k].id
    ensures q in Outcome(listing, answers, n) <==>
      k < n && StatusAfter(listing[k], answers[k]).Some? && q == Refreshed(listing[k], answers[k])
  {
    if n > 0 {
      OutcomeAbout(listing, answers, n - 1, k, q);
    }
  }

  /** For a pod among distinct listed ones: the provider is asked about it exactly when its phase is
      neither Succeeded nor Failed, its reason is not "ProviderFailed" and it is not terminating; and
      it is published exactly when, besides, a status was found or the running pod was lost. */
  lemma PassDecidesByFields(listing: seq<PodValue>, watermark: Time, answers: seq<Answer>, k: nat, q: PodValue)
    requires |answers| == |listing| && k < |listing| && DistinctIds(listing)
    requires q.id == listing[k].id
    ensures
      var actions, p, a := Pass(listing, watermark, answers).actions, listing[k], answers[k];
      var live := p.status.phase !in {Phase.Succeeded, Phase.Failed} && p.status.reason != "ProviderFailed"
        && p.deletionTimestamp == None;
      && (FetchedStatus(p.id) in actions <==> live)
      && (q in Publications(actions) <==>
            && live
            && (a.reply.Found? || (a.reply in {NotFound, Nil} && p.status.phase == Phase.Running))
            && q == p.(status := if a.reply.Found? then a.reply.status else LostStatus(p.status, a.now)))
  {
    PassAsksOnce(listing, watermark, answers, |listing|, k);
    AskedIsCounted(Pass(listing, watermark, answers).actions, listing[k].id);
    PassPublishes(listing, watermark, answers, |listing|);
    OutcomeAbout(listing, answers, |listing|, k, q);
  }

  function IdsUpTo(listing: seq<PodValue>, n: nat): (ids: seq<PodId>)
    requires n <= |listing|
    ensures |ids| == n && forall k | 0 <= k < n :: ids[k] == listing[k].id
  {
    seq(n, k requires 0 <= k < n => listing[k].id)
  }

  lemma IdsUpToOneMore(listing: seq<PodValue>, n: nat)
    requires 0 < n <= |listing|
    ensures IdsUpTo(listing, n) == IdsUpTo(listing, n - 1) + [listing[n - 1].id]
  {
  }

  lemma VisitFetchesOnce(p: PodValue, watermark: Time, a: Answer)
    ensures Ids(Visited(p, watermark, a), EventFetch) == [p.id]
  {
    var first, records := [FetchedEvents(p.id)], Admitted(a.events, watermark);
    var ask := if Skipped(p) then [] else [FetchedStatus(p.id)];
    var back := if StatusAfter(p, a).Some? then [Published(Refreshed(p, a))] else [];
    AdmittedAreRecords(a.events, watermark);
    assert Visited(p, watermark, a) == first + records + ask + back;
    SingleId(first[0], EventFetch);
    NoIds(records, EventFetch);
    NoIds(ask, EventFetch);
    NoIds(back, EventFetch);
    IdsConcat(first + records + ask, back, EventFetch);
    IdsConcat(first + records, ask, EventFetch);
    IdsConcat(first, records, EventFetch);
  }

  /** A pass fetches the events of every listed pod, skipped or not, in order. */
  lemma {:induction false} PassFetchesEveryPod(listing: seq<PodValue>, watermark: Time, answers: seq<Answer>, n: nat)
    requires |answers| == |listing| && n <= |listing|
    ensures Ids(PassTo(listing, watermark, answers, n).actions, EventFetch) == IdsUpTo(listing, n)
  {
    if n > 0 {
      PassFetchesEveryPod(listing, watermark, answers, n - 1);
      var before := PassTo(listing, watermark, answers, n - 1);
      VisitFetchesOnce(listing[n - 1], before.watermark, answers[n - 1]);
      IdsConcat(before.actions, Visited(listing[n - 1], before.watermark, answers[n - 1]), EventFetch);
      IdsUpToOneMore(listing, n);
    }
  }

  lemma {:induction false} PassNeverCleans(listing: seq<PodValue>, watermark: Time, answers: seq<Answer>, n: nat)
    requires |answers| == |listing| && n <= |listing|
    ensures forall a <- PassTo(listing, watermark, answers, n).actions ::
      !a.ListedActive? && !a.CleanedUp? && !a.LoggedFailure?
  {
    if n > 0 {
      PassNeverCleans(listing, watermark, answers, n - 1);
      AdmittedAreRecords(answers[n - 1].events, PassTo(listing, watermark, answers, n - 1).watermark);
    }
  }

  // ---------- One cleanup pass ----------

  lemma {:induction false} CleanupOnlyCleans(active: seq<PodId>, listed: set<PodId>, results: seq<CallResult>)
    requires |results| == |active|
    ensures forall a <- CleanupActions(active, listed, results) :: a.CleanedUp? || a.LoggedFailure?
  {
    if active != [] {
      var n := |active| - 1;
      CleanupOnlyCleans(active[..n], listed, results[..n]);
    }
  }

  /** Cleanup treats a list piece by piece, so the calls come in the order of the list. */
  lemma {:induction false} DanglingConcat(a: seq<PodId>, b: seq<PodId>, listed: set<PodId>)
    ensures Dangling(a + b, listed) == Dangling(a, listed) + Dangling(b, listed)
  {
    if b == [] {
      assert a + b == a;
    } else {
      var n := |b| - 1;
      assert (a + b)[..|a + b| - 1] == a + b[..n];
      DanglingConcat(a, b[..n], listed);
    }
  }

  /** The dangling identifiers are the active ones that are not listed, each as often as it is
      active. */
  lemma {:induction false} DanglingIsTheUnlistedPart(active: seq<PodId>, listed: set<PodId>, id: PodId)
    ensures multiset(Dangling(active, listed))[id] == if id in listed then 0 else multiset(active)[id]
  {
    if active != [] {
      var n := |active| - 1;
      assert active == active[..n] + [active[n]];
      DanglingIsTheUnlistedPart(active[..n], listed, id);
    }
  }

  lemma DanglingMembers(active: seq<PodId>, listed: set<PodId>, id: PodId)
    ensures id in Dangling(active, listed) <==> id in active && id !in listed
  {
    DanglingIsTheUnlistedPart(active, listed, id);
    assert id in Dangling(active, listed) <==> id in multiset(Dangling(active, listed));
    assert id in active <==> id in multiset(active);
  }

  /** The active identifiers for which a call answers with a failure other than a missing pod. */
  function BrokenAmong(active: seq<PodId>, results: seq<CallResult>): seq<PodId>
    requires |results| == |active|
  {
    if active == [] then []
    else
      var n := |active| - 1;
      BrokenAmong(active[..n], results[..n]) + if results[n] == Broken then [active[n]] else []
  }

  /** What the last active identifier adds. */
  function LastCall(active: seq<PodId>, listed: set<PodId>, results: seq<CallResult>): (calls: seq<Action>)
    requires |results| == |active| > 0
    ensures CleanupActions(active, listed, results) ==
      CleanupActions(active[..|active| - 1], listed, results[..|active| - 1]) + calls
  {
    var id := active[|active| - 1];
    if id in listed then []
    else if results[|active| - 1] == Broken then [CleanedUp(id), LoggedFailure(id)]
    else [CleanedUp(id)]
  }

  lemma LastCallIds(active: seq<PodId>, listed: set<PodId>, results: seq<CallResult>)
    requires |results| == |active| > 0
    ensures
      var id, last := active[|active| - 1], LastCall(active, listed, results);
      && Ids(last, Cleanup) == (if id in listed then [] else [id])
      && Ids(last, Failure) == if id in listed || results[|active| - 1] != Broken then [] else [id]
  {
    var id := active[|active| - 1];
    forall k: Kind
      ensures Ids([CleanedUp(id)], k) == IdOf(CleanedUp(id), k)
      ensures Ids([CleanedUp(id), LoggedFailure(id)], k) == IdOf(CleanedUp(id), k) + IdOf(LoggedFailure(id), k)
    {
      SingleId(CleanedUp(id), k);
      SingleId(LoggedFailure(id), k);
      IdsConcat([CleanedUp(id)], [LoggedFailure(id)], k);
      assert [CleanedUp(id)] + [LoggedFailure(id)] == [CleanedUp(id), LoggedFailure(id)];
    }
  }

  lemma DanglingOneMore(ids: seq<PodId>, id: PodId, listed: set<PodId>)
    ensures Dangling(ids + [id], listed) == Dangling(ids, listed) + if id in listed then [] else [id]
  {
    assert (ids + [id])[..|ids|] == ids;
  }

  lemma {:induction false} CallsForTheDangling(active: seq<PodId>, listed: set<PodId>, results: seq<CallResult>)
    requires |results| == |active|
    ensures Ids(CleanupActions(active, listed, results), Cleanup) == Dangling(active, listed)
    ensures Ids(CleanupActions(active, listed, results), Failure) == Dangling(BrokenAmong(active, results), listed)
  {
    if active != [] {
      var n := |active| - 1;
      CallsForTheDangling(active[..n], listed, results[..n]);
      LastCallIds(active, listed, results);
      IdsConcat(CleanupActions(active[..n], listed, results[..n]), LastCall(active, listed, results), Cleanup);
      IdsConcat(CleanupActions(active[..n], listed, results[..n]), LastCall(active, listed, results), Failure);
      var broken := BrokenAmong(active[..n], results[..n]);
      DanglingOneMore(broken, active[n], listed);
      assert BrokenAmong(active, results) == if results[n] == Broken then broken + [active[n]] else broken;
    }
  }

  /** A failure is logged about a pod exactly when a call for it is made and breaks. */
  lemma {:induction false} FailureLoggedExactlyWhenBroken(active: seq<PodId>, listed: set<PodId>,
                                                          results: seq<CallResult>, id: PodId)
    requires |results| == |active|
    ensures LoggedFailure(id) in CleanupActions(active, listed, results) <==>
      id !in listed && exists i | 0 <= i < |active| :: active[i] == id && results[i] == Broken
  {
    if active != [] {
      var n := |active| - 1;
      FailureLoggedExactlyWhenBroken(active[..n], listed, results[..n], id);
      assert CleanupActions(active, listed, results) ==
        CleanupActions(active[..n], listed, results[..n]) + LastCall(active, listed, results);
      assert LoggedFailure(id) in LastCall(active, listed, results) <==>
        id !in listed && active[n] == id && results[n] == Broken;
      assert forall i | 0 <= i < n :: active[..n][i] == active[i] && results[..n][i] == results[i];
    }
  }

  lemma {:induction false} FailuresFollowTheirCalls(active: seq<PodId>, listed: set<PodId>, results: seq<CallResult>,
                                                    k: nat)
    requires |results| == |active| && k < |CleanupActions(active, listed, results)|
    requires CleanupActions(active, listed, results)[k].LoggedFailure?
    ensures k > 0
    ensures CleanupActions(active, listed, results)[k - 1] == CleanedUp(CleanupActions(active, listed, results)[k].id)
  {
    var n := |active| - 1;
    var before := CleanupActions(active[..n], listed, results[..n]);
    assert CleanupActions(active, listed, results) == before + LastCall(active, listed, results);
    if k < |before| {
      FailuresFollowTheirCalls(active[..n], listed, results[..n], k);
    }
  }

  /** Whatever the individual calls answer, a cleanup pass lists the active pods, calls for exactly
      the dangling ones, in order, and logs a failure exactly for those of these calls that broke;
      when listing the active pods fails it does nothing more. */
  lemma CleanupCallsTheDangling(active: Option<seq<PodId>>, listed: set<PodId>, results: seq<CallResult>)
    requires active.Some? ==> |results| == |active.value|
    ensures
      var log := CleanupResult(active, listed, results);
      && Ids(log, Cleanup) == (if active.None? then [] else Dangling(active.value, listed))
      && Ids(log, Failure) == (if active.None? then [] else Dangling(BrokenAmong(active.value, results), listed))
      && log[0] == ListedActive
      && forall a <- log[1..] :: a.CleanedUp? || a.LoggedFailure?
  {
    var calls := if active.None? then [] else CleanupActions(active.value, listed, results);
    var log := CleanupResult(active, listed, results);
    assert log[1..] == calls;
    assert Ids(log, Cleanup) == Ids(calls, Cleanup) && Ids(log, Failure) == Ids(calls, Failure);
    if active.Some? {
      CallsForTheDangling(active.value, listed, results);
      CleanupOnlyCleans(active.value, listed, results);
    }
  }
}
