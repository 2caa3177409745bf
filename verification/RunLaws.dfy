/** Properties of every run of the tracker and the provider together. */
module RunLaws {
  import opened Kube
  import opened Sequences
  import opened TrackerSpec
  import opened PassLaws
  import opened EventLaws
  import opened CloudRun
  import opened PodKeys
  import opened World

  // ---------- What a step says about one pod ----------

  predicate Touches(e: Step, id: PodId) {
    match e
    case Create(i, kept, _, _) => kept && i == id
    case Delete(i, kept, _) => kept && i == id
    case Arrive(p) => p.id == id
    case Vanish(i) => i == id
    case MarkDeleting(i, _) => i == id
    case _ => false
  }

  /** The questions and publications about one pod in a log. */
  predicate Concerns(a: Action, id: PodId) {
    a == FetchedStatus(id) || (a.Published? && a.pod.id == id)
  }

  lemma {:induction false} PassConcernsOnlyLive(vs: seq<PodValue>, watermark: Time, answers: seq<Answer>, n: nat,
                                                id: PodId)
    requires |answers| == |vs| && n <= |vs|
    requires forall k | 0 <= k < n :: vs[k].id == id ==> Skipped(vs[k])
    ensures forall a <- PassTo(vs, watermark, answers, n).actions :: !Concerns(a, id)
  {
    if n > 0 {
      PassConcernsOnlyLive(vs, watermark, answers, n - 1, id);
      AdmittedAreRecords(answers[n - 1].events, PassTo(vs, watermark, answers, n - 1).watermark);
    }
  }

  /** A step that is not about a pod refreshes it if it is a status pass, and leaves it alone
      otherwise. */
  lemma UntouchedPod(w: World, e: Step, id: PodId)
    requires Keyed(w) && Enabled(w, e) && id in w.cluster && !Touches(e, id)
    ensures id in Next(w, e).cluster
    ensures Next(w, e).cluster[id] == if e.StatusPass? then Refreshed(w.cluster[id], e.oracle(id)) else w.cluster[id]
  {
    if e.StatusPass? {
      PassRefreshesEachPod(w, e.listing, e.oracle);
    }
  }

  lemma SkippedPodIsIgnored(w: World, e: Step, id: PodId)
    requires Keyed(w) && Enabled(w, e) && id in w.cluster && Skipped(w.cluster[id])
    ensures forall a <- Effects(w, e) :: !Concerns(a, id)
  {
    match e {
      case StatusPass(listing, oracle) =>
        var vs := Listed(w.cluster, listing);
        forall k | 0 <= k < |vs| && vs[k].id == id
          ensures Skipped(vs[k])
        {
          assert listing[k] in listing && vs[k] == w.cluster[listing[k]];
        }
        PassConcernsOnlyLive(vs, w.watermark, AnswersOf(listing, oracle), |listing|, id);
      case CleanupPass(keys) =>
        CleanupOnlyCleans(Active(w.known, keys), w.cluster.Keys, seq(|keys|, _ => Done));
      case _ =>
    }
  }

  // ---------- Terminal states absorb ----------

  predicate Terminal(p: PodValue) {
    p.status.phase == Phase.Succeeded || p.status.phase == Phase.Failed
  }

  predicate Leaves(e: Step, id: PodId) {
    e == Vanish(id) || (e.Create? && e.id == id && e.kept)
  }

  predicate Deletes(e: Step, id: PodId) {
    e.Delete? && e.id == id && e.kept
  }

  lemma SkippedPodStep(w: World, e: Step, id: PodId)
    requires Keyed(w) && Enabled(w, e)
    requires id in w.cluster && Skipped(w.cluster[id]) && !Leaves(e, id)
    ensures
      var next := Next(w, e);
      && id in next.cluster && Skipped(next.cluster[id])
      && (Terminal(w.cluster[id]) ==> Terminal(next.cluster[id]))
      && (!Deletes(e, id) ==> next.cluster[id].status == w.cluster[id].status)
  {
    if !Touches(e, id) {
      UntouchedPod(w, e, id);
    } else {
      assert e.Delete? || e.MarkDeleting?;
    }
  }

  /** Over any run, with any answers and any environment steps in between, a pod once skipped stays
      skipped: the provider is not asked about it again, nothing is published for it, a terminal
      phase stays terminal, and unless the provider deletes it its status does not change at all.
      Only a pod that leaves the cluster, or that the provider is asked to create again, escapes. */
  lemma {:induction false} SkippedPodsStaySkipped(w: World, run: seq<Step>, id: PodId)
    requires Keyed(w) && Legal(w, run)
    requires id in w.cluster && Skipped(w.cluster[id])
    requires forall e <- run :: !Leaves(e, id)
    ensures
      var last := RunTo(w, run);
      && id in last.cluster && Skipped(last.cluster[id])
      && (Terminal(w.cluster[id]) ==> Terminal(last.cluster[id]))
      && ((forall e <- run :: !Deletes(e, id)) ==> last.cluster[id].status == w.cluster[id].status)
    ensures forall a <- Log(w, run) :: !Concerns(a, id)
    decreases run
  {
    if run != [] {
      var e, next := run[0], Next(w, run[0]);
      assert e in run;
      NextKeepsKeyed(w, e);
      SkippedPodIsIgnored(w, e, id);
      SkippedPodStep(w, e, id);
      assert forall x <- run[1..] :: x in run;
      SkippedPodsStaySkipped(next, run[1..], id);
    }
  }

  /** A pod the provider has deleted is in that set from then on. */
  lemma DeletedPodsStayDeleted(w: World, id: PodId, now: Time, run: seq<Step>)
    requires Keyed(w) && id in w.cluster
    requires Legal(Next(w, Delete(id, true, now)), run)
    requires forall e <- run :: !Leaves(e, id)
    ensures
      var last := RunTo(Next(w, Delete(id, true, now)), run);
      && id in last.cluster && last.cluster[id].status.phase in {Phase.Succeeded, Phase.Failed}
      && ((forall e <- run :: !Deletes(e, id)) ==> last.cluster[id].status.phase == Phase.Succeeded)
    ensures forall a <- Log(Next(w, Delete(id, true, now)), run) :: !Concerns(a, id)
  {
    NextKeepsKeyed(w, Delete(id, true, now));
    SkippedPodsStaySkipped(Next(w, Delete(id, true, now)), run, id);
  }

  // ---------- Convergence when the provider is lost ----------

  ghost function LiveIds(w: World): set<PodId> {
    set id <- w.cluster | LiveRunning(w.cluster[id])
  }

  /** The live running pod a step brings into the cluster, if any: one that arrives, or one whose
      creation writes the listed pod. */
  function Added(e: Step): set<PodId> {
    match e
    case Arrive(p) => if LiveRunning(p) then {p.id} else {}
    case Create(id, kept, _, _) => if kept then {id} else {}
    case _ => {}
  }

  function Additions(run: seq<Step>): nat {
    if run == [] then 0 else |Added(run[0])| + Additions(run[1..])
  }

  ghost predicate LostSteps(run: seq<Step>) {
    forall e <- run :: e.StatusPass? ==> forall id :: Lost(e.oracle(id))
  }

  ghost function LiveAmong(w: World, ids: seq<PodId>): set<PodId> {
    set id <- ids | id in w.cluster && LiveRunning(w.cluster[id])
  }

  lemma LiveAmongOneMore(w: World, ids: seq<PodId>, id: PodId)
    requires id in w.cluster && id !in ids
    ensures |LiveAmong(w, ids + [id])| == |LiveAmong(w, ids)| + if LiveRunning(w.cluster[id]) then 1 else 0
  {
    var before, now := LiveAmong(w, ids), LiveAmong(w, ids + [id]);
    assert now == if LiveRunning(w.cluster[id]) then before + {id} else before;
  }

  lemma {:induction false} OneOutcomePerLivePod(w: World, listing: seq<PodId>, oracle: PodId -> Answer, n: nat)
    requires Enumerates(listing, w.cluster.Keys) && n <= |listing|
    ensures |LostOutcome(Listed(w.cluster, listing), AnswersOf(listing, oracle), n)|
      == |LiveAmong(w, listing[..n])|
  {
    if n > 0 {
      OneOutcomePerLivePod(w, listing, oracle, n - 1);
      var id := listing[n - 1];
      assert id in listing && id !in listing[..n - 1];
      assert listing[..n] == listing[..n - 1] + [id];
      LiveAmongOneMore(w, listing[..n - 1], id);
    }
  }

  lemma LostPassPublishesEachLivePod(w: World, listing: seq<PodId>, oracle: PodId -> Answer)
    requires Enumerates(listing, w.cluster.Keys)
    requires forall id :: Lost(oracle(id))
    ensures |Publications(Effects(w, StatusPass(listing, oracle)))| == |LiveIds(w)|
  {
    LostPassPublishesTheLive(Listed(w.cluster, listing), w.watermark, AnswersOf(listing, oracle));
    OneOutcomePerLivePod(w, listing, oracle, |listing|);
    assert listing[..|listing|] == listing;
    assert LiveIds(w) == LiveAmong(w, listing);
  }

  /** One pass over a lost provider publishes each live running pod once and leaves none. */
  lemma LostPassDrains(w: World, listing: seq<PodId>, oracle: PodId -> Answer)
    requires Keyed(w) && Enumerates(listing, w.cluster.Keys)
    requires forall id :: Lost(oracle(id))
    ensures |Publications(Effects(w, StatusPass(listing, oracle)))| == |LiveIds(w)|
    ensures LiveIds(Next(w, StatusPass(listing, oracle))) == {}
  {
    LostPassPublishesEachLivePod(w, listing, oracle);
    PassRefreshesEachPod(w, listing, oracle);
    assert forall id <- w.cluster :: Lost(oracle(id)) && !LiveRunning(Refreshed(w.cluster[id], oracle(id)));
  }

  lemma OtherStepsPublishNothing(w: World, e: Step)
    requires Enabled(w, e) && !e.StatusPass?
    ensures Publications(Effects(w, e)) == []
  {
    if e.CleanupPass? {
      CleanupOnlyCleans(Active(w.known, e.keys), w.cluster.Keys, seq(|e.keys|, _ => Done));
      NoPublications(Effects(w, e));
    }
  }

  lemma LiveAfterStep(w: World, e: Step, id: PodId)
    requires Enabled(w, e) && !e.StatusPass?
    requires id in LiveIds(Next(w, e))
    ensures id in LiveIds(w) + Added(e)
  {
  }

  lemma OtherStepsAddAtMostOne(w: World, e: Step)
    requires Enabled(w, e) && !e.StatusPass?
    ensures |LiveIds(Next(w, e))| <= |LiveIds(w)| + |Added(e)|
  {
    forall id | id in LiveIds(Next(w, e))
      ensures id in LiveIds(w) + Added(e)
    {
      LiveAfterStep(w, e, id);
    }
    SubsetSize(LiveIds(Next(w, e)), LiveIds(w) + Added(e));
  }

  /** While the provider is lost, whatever happens in between, publications are paid for: their
      number plus the live running pods left over never exceeds the live running pods at the start
      plus those that arrive or are created in the cluster. */
  lemma {:induction false} LostProviderBudget(w: World, run: seq<Step>)
    requires Keyed(w) && Legal(w, run) && LostSteps(run)
    ensures |Publications(Log(w, run))| + |LiveIds(RunTo(w, run))| <= |LiveIds(w)| + Additions(run)
    decreases run
  {
    if run != [] {
      var e, next := run[0], Next(w, run[0]);
      NextKeepsKeyed(w, e);
      assert e in run && forall x <- run[1..] :: x in run;
      LostProviderBudget(next, run[1..]);
      PublicationsConcat(Effects(w, e), Log(next, run[1..]));
      if e.StatusPass? {
        LostPassDrains(w, e.listing, e.oracle);
      } else {
        OtherStepsPublishNothing(w, e);
        OtherStepsAddAtMostOne(w, e);
      }
    }
  }

  /** So after one pass over a lost provider nothing at all is published until a live running pod
      arrives or is created in the cluster. */
  lemma LostProviderFallsSilent(w: World, listing: seq<PodId>, oracle: PodId -> Answer, run: seq<Step>)
    requires Keyed(w) && Enumerates(listing, w.cluster.Keys)
    requires forall id :: Lost(oracle(id))
    requires Legal(Next(w, StatusPass(listing, oracle)), run) && LostSteps(run) && Additions(run) == 0
    ensures Publications(Log(Next(w, StatusPass(listing, oracle)), run)) == []
  {
    LostPassDrains(w, listing, oracle);
    NextKeepsKeyed(w, StatusPass(listing, oracle));
    LostProviderBudget(Next(w, StatusPass(listing, oracle)), run);
  }

  // ---------- The phase as a fold over observed states ----------

  /** The services a run's status passes observe for one pod, in order. */
  ghost predicate Observes(run: seq<Step>, id: PodId, hostIP: string, seen: seq<Service>) {
    if run == [] then seen == []
    else if run[0].StatusPass? then
      && seen != []
      && run[0].oracle(id).reply == Found(ObservedStatus(seen[0], hostIP))
      && Observes(run[1..], id, hostIP, seen[1..])
    else Observes(run[1..], id, hostIP, seen)
  }

  /** How many of the observations are made: up to and including the first failed one. */
  function Asked(seen: seq<Service>): (n: nat)
    ensures n <= |seen|
    ensures forall i | 0 <= i < n - 1 :: seen[i].state != FAILED
    ensures n < |seen| ==> n > 0 && seen[n - 1].state == FAILED
  {
    if seen == [] then 0
    else if seen[0].state == FAILED then 1
    else 1 + Asked(seen[1..])
  }

  lemma {:induction false} LastAskedDecides(seen: seq<Service>)
    requires seen != []
    ensures Asked(seen) > 0
    ensures seen[Asked(seen) - 1].state == FAILED <==> exists k | 0 <= k < |seen| :: seen[k].state == FAILED
    ensures seen[Asked(seen) - 1].state != FAILED ==> Asked(seen) == |seen|
  {
    if seen[0].state != FAILED && |seen| > 1 {
      LastAskedDecides(seen[1..]);
      assert forall k | 0 < k < |seen| :: seen[k] == seen[1..][k - 1];
    }
  }

  lemma StatusPassAsksAbout(w: World, listing: seq<PodId>, oracle: PodId -> Answer, id: PodId)
    requires Keyed(w) && Enumerates(listing, w.cluster.Keys) && id in w.cluster
    ensures AskCount(PassOver(w, listing, oracle, |listing|).actions, id) == if Skipped(w.cluster[id]) then 0 else 1
  {
    var vs := Listed(w.cluster, listing);
    assert forall k | 0 <= k < |vs| :: listing[k] in listing && vs[k].id == listing[k];
    assert id in listing;
    var k :| 0 <= k < |listing| && listing[k] == id;
    PassAsksOnce(vs, w.watermark, AnswersOf(listing, oracle), |listing|, k);
  }

  lemma StepAsksAbout(w: World, e: Step, id: PodId)
    requires Keyed(w) && Enabled(w, e) && id in w.cluster
    ensures AskCount(Effects(w, e), id) == if e.StatusPass? && !Skipped(w.cluster[id]) then 1 else 0
  {
    match e {
      case StatusPass(listing, oracle) =>
        StatusPassAsksAbout(w, listing, oracle, id);
      case CleanupPass(keys) =>
        CleanupOnlyCleans(Active(w.known, keys), w.cluster.Keys, seq(|keys|, _ => Done));
        NeverAsked(Effects(w, e), id);
      case _ =>
    }
  }

  lemma {:induction false} FrozenPod(w: World, run: seq<Step>, id: PodId)
    requires Keyed(w) && Legal(w, run)
    requires id in w.cluster && Skipped(w.cluster[id])
    requires forall e <- run :: !Touches(e, id)
    ensures id in RunTo(w, run).cluster && RunTo(w, run).cluster[id] == w.cluster[id]
    ensures AskCount(Log(w, run), id) == 0
    decreases run
  {
    if run != [] {
      assert run[0] in run && forall x <- run[1..] :: x in run;
      NextKeepsKeyed(w, run[0]);
      UntouchedPod(w, run[0], id);
      StepAsksAbout(w, run[0], id);
      AskCountConcat(Effects(w, run[0]), Log(Next(w, run[0]), run[1..]), id);
      FrozenPod(Next(w, run[0]), run[1..], id);
    }
  }

  lemma LogAsksAbout(w: World, run: seq<Step>, id: PodId)
    requires Keyed(w) && Legal(w, run) && run != [] && id in w.cluster
    ensures AskCount(Log(w, run), id) ==
      (if run[0].StatusPass? && !Skipped(w.cluster[id]) then 1 else 0) + AskCount(Log(Next(w, run[0]), run[1..]), id)
  {
    StepAsksAbout(w, run[0], id);
    AskCountConcat(Effects(w, run[0]), Log(Next(w, run[0]), run[1..]), id);
  }

  lemma ObservedPod(p: PodValue, a: Answer, s: Service, hostIP: string)
    requires !Skipped(p) && a.reply == Found(ObservedStatus(s, hostIP))
    ensures Refreshed(p, a) == p.(status := ObservedStatus(s, hostIP))
    ensures Skipped(Refreshed(p, a)) <==> s.state == FAILED
  {
    ConditionsAndPhase(s, hostIP);
  }

  /** From a pod that is not skipped, over any run whose steps leave it to the status passes: with
      observations s1..sn, its status is the one for the first failed state, or for the last state
      if none failed, and nothing but the status changes. The provider is asked about it up to and
      including the first failure and never again. */
  lemma {:induction false} StatusFollowsObservations(w: World, run: seq<Step>, id: PodId, hostIP: string,
                                                     seen: seq<Service>)
    requires Keyed(w) && Legal(w, run) && Observes(run, id, hostIP, seen)
    requires id in w.cluster && !Skipped(w.cluster[id])
    requires forall e <- run :: !Touches(e, id)
    ensures id in RunTo(w, run).cluster
    ensures AskCount(Log(w, run), id) == Asked(seen)
    ensures RunTo(w, run).cluster[id] ==
      if seen == [] then w.cluster[id]
      else w.cluster[id].(status := ObservedStatus(seen[Asked(seen) - 1], hostIP))
    decreases run
  {
    if run != [] {
      var e, next := run[0], Next(w, run[0]);
      assert e in run && forall x <- run[1..] :: x in run;
      NextKeepsKeyed(w, e);
      UntouchedPod(w, e, id);
      LogAsksAbout(w, run, id);
      if !e.StatusPass? {
        StatusFollowsObservations(next, run[1..], id, hostIP, seen);
      } else {
        ObservedPod(w.cluster[id], e.oracle(id), seen[0], hostIP);
        if seen[0].state == FAILED {
          FrozenPod(next, run[1..], id);
        } else {
          StatusFollowsObservations(next, run[1..], id, hostIP, seen[1..]);
        }
      }
    }
  }

  /** In terms of phases: Failed if some observed state was a failure; else the last state decides,
      Pending while the service reconciles or waits and Running otherwise. */
  lemma PhaseFollowsStates(w: World, run: seq<Step>, id: PodId, hostIP: string, seen: seq<Service>)
    requires Keyed(w) && Legal(w, run) && Observes(run, id, hostIP, seen) && seen != []
    requires id in w.cluster && !Skipped(w.cluster[id])
    requires forall e <- run :: !Touches(e, id)
    ensures id in RunTo(w, run).cluster
    ensures
      var s := RunTo(w, run).cluster[id].status;
      && (s.phase == Phase.Failed <==> exists k | 0 <= k < |seen| :: seen[k].state == "CONDITION_FAILED")
      && (s.phase != Phase.Failed ==>
            s.phase == if seen[|seen| - 1].state in {"CONDITION_RECONCILING", "CONDITION_PENDING"}
                       then Phase.Pending else Phase.Running)
      && (s.conditions != [] ==> s.phase == Phase.Running)
  {
    StatusFollowsObservations(w, run, id, hostIP, seen);
    LastAskedDecides(seen);
    ConditionsAndPhase(seen[Asked(seen) - 1], hostIP);
  }

  // ---------- Events ----------

  lemma OneStepAdvances(w: World, e: Step)
    requires Enabled(w, e)
    ensures w.watermark <= Next(w, e).watermark
    ensures Within(Effects(w, e), w.watermark, Next(w, e).watermark) && RecordsAdvance(Effects(w, e))
  {
    match e {
      case StatusPass(listing, oracle) =>
        PassAdvances(Listed(w.cluster, listing), w.watermark, AnswersOf(listing, oracle), |listing|);
      case CleanupPass(keys) =>
        CleanupOnlyCleans(Active(w.known, keys), w.cluster.Keys, seq(|keys|, _ => Done));
        assert forall a <- Effects(w, e) :: !Timed(a);
        assert forall k | 0 <= k < |Effects(w, e)| :: Effects(w, e)[k] in Effects(w, e);
      case _ =>
    }
  }

  /** Over any run the watermark never goes back, and a timestamped event recorded by one call is
      earlier than every timestamped event a later call records, for the same pod or another. */
  lemma {:induction false} EventsAreRecordedAtMostOnce(w: World, run: seq<Step>)
    requires Legal(w, run)
    ensures w.watermark <= RunTo(w, run).watermark
    ensures Within(Log(w, run), w.watermark, RunTo(w, run).watermark) && RecordsAdvance(Log(w, run))
    decreases run
  {
    if run != [] {
      var next := Next(w, run[0]);
      OneStepAdvances(w, run[0]);
      EventsAreRecordedAtMostOnce(next, run[1..]);
      AdvanceConcat(Effects(w, run[0]), Log(next, run[1..]), w.watermark, next.watermark, RunTo(w, run).watermark);
    }
  }

  // ---------- Container states are exclusive ----------

  ghost predicate ExclusiveCluster(w: World) {
    forall id <- w.cluster :: ExclusiveStatus(w.cluster[id].status)
  }

  ghost predicate ExclusiveInputs(e: Step) {
    match e
    case StatusPass(_, oracle) => forall id :: oracle(id).reply.Found? ==> ExclusiveStatus(oracle(id).reply.status)
    case Arrive(p) => ExclusiveStatus(p.status)
    case _ => true
  }

  lemma WritersAreExclusive(s: Service, hostIP: string, containers: seq<ContainerSpec>, before: PodStatus, now: Time)
    ensures ExclusiveStatus(ObservedStatus(s, hostIP))
    ensures ExclusiveStatus(CreatedStatus(containers, now))
    ensures ExclusiveStatus(DeletedStatus(before, now))
    ensures ExclusiveStatus(before) ==> ExclusiveStatus(LostStatus(before, now))
  {
    LostRewriteIsExclusive(before, now);
  }

  /** Whatever the tracker, the provider and the environment do, no container ever has two states:
      every writer keeps that, the provider's own refreshes among them. */
  lemma {:induction false} ContainerStatesStayExclusive(w: World, run: seq<Step>)
    requires Keyed(w) && Legal(w, run) && ExclusiveCluster(w)
    requires forall e <- run :: ExclusiveInputs(e)
    ensures ExclusiveCluster(RunTo(w, run))
    decreases run
  {
    if run != [] {
      var e, next := run[0], Next(w, run[0]);
      assert e in run && forall x <- run[1..] :: x in run;
      NextKeepsKeyed(w, e);
      StepKeepsExclusive(w, e);
      ContainerStatesStayExclusive(next, run[1..]);
    }
  }

  lemma RefreshKeepsExclusive(p: PodValue, a: Answer)
    requires ExclusiveStatus(p.status)
    requires a.reply.Found? ==> ExclusiveStatus(a.reply.status)
    ensures ExclusiveStatus(Refreshed(p, a).status)
  {
    LostRewriteIsExclusive(p.status, a.now);
  }

  lemma PassKeepsExclusive(w: World, listing: seq<PodId>, oracle: PodId -> Answer)
    requires Keyed(w) && Enabled(w, StatusPass(listing, oracle)) && ExclusiveCluster(w)
    requires ExclusiveInputs(StatusPass(listing, oracle))
    ensures ExclusiveCluster(Next(w, StatusPass(listing, oracle)))
  {
    PassRefreshesEachPod(w, listing, oracle);
    forall id | id in w.cluster
      ensures ExclusiveStatus(Refreshed(w.cluster[id], oracle(id)).status)
    {
      RefreshKeepsExclusive(w.cluster[id], oracle(id));
    }
  }

  lemma StepKeepsExclusive(w: World, e: Step)
    requires Keyed(w) && Enabled(w, e) && ExclusiveCluster(w) && ExclusiveInputs(e)
    ensures ExclusiveCluster(Next(w, e))
  {
    if e.StatusPass? {
      PassKeepsExclusive(w, e.listing, e.oracle);
    }
  }

  // ---------- The provider as handler ----------

  /** Every answer of a run's status passes is one CloudRunProvider can give. */
  ghost predicate FromCloudRun(run: seq<Step>, hostIP: string) {
    forall e <- run :: e.StatusPass? ==> forall id :: ObservedReply(e.oracle(id), hostIP)
  }

  ghost predicate ObservedReply(a: Answer, hostIP: string) {
    a.events == [] && exists s: Service :: a.reply == Found(ObservedStatus(s, hostIP))
  }

  predicate Bare(p: PodValue) {
    p.status.reason == "" && forall c <- p.status.containerStatuses :: c.state == NO_STATE
  }

  /** The provider never reports a pod as not found, so no run with it as the handler publishes a
      lost pod. Nor is an event ever recorded: the recorder, which the provider leaves unset when it
      starts the tracker, is never used. */
  lemma {:induction false} CloudRunNeverLosesPods(w: World, run: seq<Step>, hostIP: string)
    requires Legal(w, run) && FromCloudRun(run, hostIP)
    ensures forall a <- Log(w, run) :: !a.Recorded?
    ensures forall p <- Publications(Log(w, run)) :: Bare(p)
    decreases run
  {
    if run != [] {
      var e, next := run[0], Next(w, run[0]);
      assert e in run && forall x <- run[1..] :: x in run;
      CloudRunNeverLosesPods(next, run[1..], hostIP);
      PublicationsConcat(Effects(w, e), Log(next, run[1..]));
      CloudRunStep(w, e, hostIP);
    }
  }

  lemma CloudRunStep(w: World, e: Step, hostIP: string)
    requires Enabled(w, e)
    requires e.StatusPass? ==> forall id :: ObservedReply(e.oracle(id), hostIP)
    ensures forall a <- Effects(w, e) :: !a.Recorded?
    ensures forall p <- Publications(Effects(w, e)) :: Bare(p)
  {
    match e {
      case StatusPass(listing, oracle) =>
        var vs, answers := Listed(w.cluster, listing), AnswersOf(listing, oracle);
        PassPublishes(vs, w.watermark, answers, |listing|);
        CloudRunOutcome(vs, w.watermark, answers, |listing|, hostIP);
      case CleanupPass(keys) =>
        OtherStepsPublishNothing(w, e);
        CleanupOnlyCleans(Active(w.known, keys), w.cluster.Keys, seq(|keys|, _ => Done));
      case _ =>
    }
  }

  lemma {:induction false} CloudRunOutcome(vs: seq<PodValue>, watermark: Time, answers: seq<Answer>, n: nat,
                                           hostIP: string)
    requires |answers| == |vs| && n <= |vs|
    requires forall a <- answers :: ObservedReply(a, hostIP)
    ensures forall a <- PassTo(vs, watermark, answers, n).actions :: !a.Recorded?
    ensures forall p <- Outcome(vs, answers, n) :: Bare(p)
  {
    if n > 0 {
      CloudRunOutcome(vs, watermark, answers, n - 1, hostIP);
      assert answers[n - 1] in answers && answers[n - 1].events == [];
    }
  }

  /** What the provider answers in this state: the service of that name. */
  ghost predicate ReadsServices(w: World, oracle: PodId -> Answer, hostIP: string) {
    forall id <- w.cluster :: !Skipped(w.cluster[id]) ==>
      && id.name in w.services
      && oracle(id).reply == Found(ObservedStatus(w.services[id.name], hostIP))
  }

  /** After a pass every pod that is not skipped mirrors the service of its name, so pods of one name
      in different namespaces all report the same status. */
  lemma PassMirrorsServices(w: World, listing: seq<PodId>, oracle: PodId -> Answer, hostIP: string)
    requires Keyed(w) && Enumerates(listing, w.cluster.Keys) && ReadsServices(w, oracle, hostIP)
    ensures
      var after := Next(w, StatusPass(listing, oracle)).cluster;
      && after.Keys == w.cluster.Keys
      && (forall id <- w.cluster :: !Skipped(w.cluster[id]) ==>
            after[id].status == ObservedStatus(w.services[id.name], hostIP))
      && (forall a, b | a in w.cluster && b in w.cluster && a.name == b.name
            && !Skipped(w.cluster[a]) && !Skipped(w.cluster[b]) :: after[a].status == after[b].status)
  {
    PassRefreshesEachPod(w, listing, oracle);
  }

  /** A pod created and then refreshed by a pass reports one status per container of its spec, with
      the same images in the same order, but without names or states. */
  lemma CreatedPodIsMirrored(w: World, id: PodId, kept: bool, now: Time, remote: Service,
                             listing: seq<PodId>, oracle: PodId -> Answer, hostIP: string)
    requires Keyed(w) && Enabled(w, Create(id, kept, now, remote))
    requires
      var created := Next(w, Create(id, kept, now, remote));
      && Enabled(created, StatusPass(listing, oracle))
      && ReadsServices(created, oracle, hostIP)
      && !Skipped(created.cluster[id])
    ensures
      var after := Next(Next(w, Create(id, kept, now, remote)), StatusPass(listing, oracle)).cluster;
      && id in after && after[id].containers == w.cluster[id].containers
      && var cs := after[id].status.containerStatuses;
      && |cs| == |w.cluster[id].containers|
      && forall i | 0 <= i < |cs| ::
           cs[i].image == w.cluster[id].containers[i].image && cs[i].name == "" && cs[i].state == NO_STATE
  {
    var e := Create(id, kept, now, remote);
    var created := Next(w, e);
    NextKeepsKeyed(w, e);
    PassMirrorsServices(created, listing, oracle, hostIP);
    UntouchedPod(created, StatusPass(listing, oracle), id);
    CreateThenRefresh(w.cluster[id].containers, created.services[id.name], hostIP);
  }

  /** A refresh erases the running states, so a pod that is lost after even one refresh is failed
      without any of its containers being reported as terminated. */
  lemma RefreshedPodsLoseNoContainers(s: Service, hostIP: string, now: Time)
    ensures LostStatus(ObservedStatus(s, hostIP), now).containerStatuses == ObservedStatus(s, hostIP).containerStatuses
  {
  }

  // ---------- The record of known pods ----------

  /** The pod a step makes the provider remember, if any. */
  function AcceptedBy(e: Step): set<PodId> {
    if e.Update? && Nameable(e.draw.id) then {e.draw.id} else {}
  }

  function AcceptedIn(run: seq<Step>): set<PodId> {
    if run == [] then {} else AcceptedBy(run[0]) + AcceptedIn(run[1..])
  }

  lemma StepKeepsRecord(w: World, e: Step, earlier: set<PodId>)
    requires Enabled(w, e) && Truthful(w.known, earlier)
    ensures Truthful(Next(w, e).known, earlier + AcceptedBy(e))
    ensures w.known.Values == earlier && Unambiguous(earlier + AcceptedBy(e)) ==>
      Next(w, e).known.Values == earlier + AcceptedBy(e)
  {
    if e.Update? {
      RememberKeeps(w.known, earlier, e.draw);
      assert earlier + {} == earlier;
    } else {
      assert earlier + AcceptedBy(e) == earlier;
    }
  }

  /** In a whole run the identifiers listed as active are among those accepted so far, and, unless
      two accepted pods join to one string, they are exactly those: nothing a run does, deletion
      included, makes the provider forget a pod. */
  lemma {:induction false} ActivePodsAreTheAccepted(w: World, run: seq<Step>, earlier: set<PodId>)
    requires Legal(w, run) && Truthful(w.known, earlier)
    ensures Truthful(RunTo(w, run).known, earlier + AcceptedIn(run))
    ensures w.known.Values == earlier && Unambiguous(earlier + AcceptedIn(run)) ==>
      RunTo(w, run).known.Values == earlier + AcceptedIn(run)
    decreases run
  {
    if run == [] {
      assert earlier + AcceptedIn(run) == earlier;
    } else {
      var now := earlier + AcceptedBy(run[0]);
      assert now + AcceptedIn(run[1..]) == earlier + AcceptedIn(run);
      StepKeepsRecord(w, run[0], earlier);
      ActivePodsAreTheAccepted(Next(w, run[0]), run[1..], now);
    }
  }
}
