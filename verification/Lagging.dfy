/** Publications that are applied late: passes over listings older than what is stored, and runs in
    which publications wait, overtake each other or get lost. */
module Lagging {
  import opened Kube
  import opened Sequences
  import opened TrackerSpec
  import opened CloudRun
  import opened World
  import opened RunLaws

  // ---------- One pass over an older listing ----------

  /** What is stored after a pass over `listed`, when `stored` has moved on meanwhile. */
  function AfterStalePass(stored: map<PodId, PodValue>, listed: map<PodId, PodValue>, watermark: Time,
                          listing: seq<PodId>, oracle: PodId -> Answer)
    : map<PodId, PodValue>
    requires forall id <- listing :: id in listed
  {
    Applied(stored, Publications(Pass(Listed(listed, listing), watermark, AnswersOf(listing, oracle)).actions))
  }

  ghost predicate EndsTerminal(cluster: map<PodId, PodValue>, id: PodId) {
    id in cluster && Terminal(cluster[id])
  }

  ghost predicate AnsweredByProvider(oracle: PodId -> Answer, hostIP: string) {
    forall id :: ObservedReply(oracle(id), hostIP)
  }

  /** Every answer, or every answer the provider can give, leaves a stored terminal pod terminal if
      and only if the listing does not have it or has a version that is skipped. */
  lemma StalePassSparesExactly(stored: map<PodId, PodValue>, listed: map<PodId, PodValue>, watermark: Time,
                               listing: seq<PodId>, id: PodId, hostIP: string)
    requires KeyedPods(listed) && Enumerates(listing, listed.Keys)
    requires EndsTerminal(stored, id)
    ensures (forall oracle :: EndsTerminal(AfterStalePass(stored, listed, watermark, listing, oracle), id)) <==>
      (id in listed ==> Skipped(listed[id]))
    ensures (forall oracle | AnsweredByProvider(oracle, hostIP) ::
        EndsTerminal(AfterStalePass(stored, listed, watermark, listing, oracle), id)) <==>
      (id in listed ==> Skipped(listed[id]))
  {
    if id in listed ==> Skipped(listed[id]) {
      forall oracle
        ensures EndsTerminal(AfterStalePass(stored, listed, watermark, listing, oracle), id)
      {
        PassOverlaysEachPod(stored, listed, watermark, listing, oracle);
      }
    } else {
      var up := Answer([], false, Found(ObservedStatus(Service([], SUCCEEDED, 0, 0), hostIP)), 0);
      var oracle: PodId -> Answer := _ => up;
      assert AnsweredByProvider(oracle, hostIP);
      PassOverlaysEachPod(stored, listed, watermark, listing, oracle);
      assert !EndsTerminal(AfterStalePass(stored, listed, watermark, listing, oracle), id);
    }
  }

  /** A pod is observed to have failed, and a pass over the listing from before observes its service
      recovered: the failed pod comes back to life. */
  lemma StaleListingRevivesPods(p: PodValue, failed: Service, recovered: Service, hostIP: string, watermark: Time)
    requires !Skipped(p) && failed.state == FAILED && recovered.state == SUCCEEDED
    ensures
      var before := map[p.id := p];
      var first := AfterStalePass(before, before, watermark, [p.id],
                                  _ => Answer([], false, Found(ObservedStatus(failed, hostIP)), 0));
      var second := AfterStalePass(first, before, watermark, [p.id],
                                   _ => Answer([], false, Found(ObservedStatus(recovered, hostIP)), 0));
      && EndsTerminal(first, p.id)
      && p.id in second && second[p.id].status.phase == Phase.Running
  {
    var before := map[p.id := p];
    var down := Answer([], false, Found(ObservedStatus(failed, hostIP)), 0);
    var up := Answer([], false, Found(ObservedStatus(recovered, hostIP)), 0);
    var first := AfterStalePass(before, before, watermark, [p.id], _ => down);
    PassOverlaysEachPod(before, before, watermark, [p.id], _ => down);
    PassOverlaysEachPod(first, before, watermark, [p.id], _ => up);
  }

  // ---------- Runs in which publications wait ----------

  /** The world with the publications that have not been applied yet. */
  datatype Lag = Lag(world: World, pending: seq<PodValue>)

  /** A publication may be applied at any time, in any order, or never. */
  datatype LagStep =
    | Publish(listing: seq<PodId>, oracle: PodId -> Answer)
    | Deliver(i: nat)
    | Drop(i: nat)
    | Other(step: Step)

  ghost predicate Allowed(l: Lag, e: LagStep) {
    match e
    case Publish(listing, _) => Enumerates(listing, l.world.cluster.Keys)
    case Deliver(i) => i < |l.pending|
    case Drop(i) => i < |l.pending|
    case Other(step) => !step.StatusPass? && Enabled(l.world, step)
  }

  ghost function Then(l: Lag, e: LagStep): Lag
    requires Allowed(l, e)
  {
    match e
    case Publish(listing, oracle) =>
      var r := PassOver(l.world, listing, oracle, |listing|);
      Lag(l.world.(watermark := r.watermark), l.pending + Publications(r.actions))
    case Deliver(i) =>
      Lag(l.world.(cluster := Stored(l.world.cluster, l.pending[i])), Without(l.pending, i))
    case Drop(i) => Lag(l.world, Without(l.pending, i))
    case Other(step) => Lag(Next(l.world, step), l.pending)
  }

  ghost function LagEffects(l: Lag, e: LagStep): seq<Action>
    requires Allowed(l, e)
  {
    match e
    case Publish(listing, oracle) => Effects(l.world, StatusPass(listing, oracle))
    case Other(step) => Effects(l.world, step)
    case _ => []
  }

  ghost predicate LagLegal(l: Lag, run: seq<LagStep>)
    decreases run
  {
    run != [] ==> Allowed(l, run[0]) && LagLegal(Then(l, run[0]), run[1..])
  }

  ghost function LagRunTo(l: Lag, run: seq<LagStep>): Lag
    requires LagLegal(l, run)
    decreases run
  {
    if run == [] then l else LagRunTo(Then(l, run[0]), run[1..])
  }

  ghost function LagLog(l: Lag, run: seq<LagStep>): seq<Action>
    requires LagLegal(l, run)
    decreases run
  {
    if run == [] then [] else LagEffects(l, run[0]) + LagLog(Then(l, run[0]), run[1..])
  }

  lemma ThenKeepsKeyed(l: Lag, e: LagStep)
    requires Keyed(l.world) && Allowed(l, e)
    ensures Keyed(Then(l, e).world)
  {
    if e.Other? {
      NextKeepsKeyed(l.world, e.step);
    }
  }

  // ---------- Terminal pods ----------

  predicate Spares(e: LagStep, id: PodId) {
    e.Other? ==> !Leaves(e.step, id)
  }

  ghost predicate Sparing(run: seq<LagStep>, id: PodId) {
    forall e <- run :: Spares(e, id)
  }

  ghost predicate NothingPends(l: Lag, id: PodId) {
    forall p <- l.pending :: p.id != id
  }

  /** Everything that still waits to be applied to the pod is terminal. */
  ghost predicate TerminalPends(l: Lag, id: PodId) {
    forall p <- l.pending :: p.id == id ==> Terminal(p)
  }

  lemma {:induction false} PublicationsAreLogged(log: seq<Action>, p: PodValue)
    requires p in Publications(log)
    ensures Published(p) in log
  {
    if !(log[0].Published? && log[0].pod == p) {
      PublicationsAreLogged(log[1..], p);
    }
  }

  lemma PublishSkips(l: Lag, listing: seq<PodId>, oracle: PodId -> Answer, id: PodId)
    requires Keyed(l.world) && Allowed(l, Publish(listing, oracle))
    requires id in l.world.cluster && Skipped(l.world.cluster[id])
    ensures forall p <- Publications(PassOver(l.world, listing, oracle, |listing|).actions) :: p.id != id
  {
    var e := StatusPass(listing, oracle);
    SkippedPodIsIgnored(l.world, e, id);
    forall p | p in Publications(Effects(l.world, e))
      ensures p.id != id
    {
      PublicationsAreLogged(Effects(l.world, e), p);
      assert !Concerns(Published(p), id);
    }
  }

  lemma SettledStep(l: Lag, e: LagStep, id: PodId)
    requires Keyed(l.world) && Allowed(l, e) && Spares(e, id)
    requires id in l.world.cluster && Skipped(l.world.cluster[id]) && NothingPends(l, id)
    ensures
      var before, after := l.world.cluster, Then(l, e).world.cluster;
      && id in after && Skipped(after[id]) && NothingPends(Then(l, e), id)
      && (Terminal(before[id]) ==> Terminal(after[id]))
      && (!(e.Other? && Deletes(e.step, id)) ==> after[id].status == before[id].status)
  {
    match e {
      case Publish(listing, oracle) => PublishSkips(l, listing, oracle, id);
      case Deliver(i) => assert l.pending[i] in l.pending;
      case Drop(i) =>
      case Other(step) => SkippedPodStep(l.world, step, id);
    }
  }

  lemma SettledPodIsIgnored(l: Lag, e: LagStep, id: PodId)
    requires Keyed(l.world) && Allowed(l, e) && id in l.world.cluster && Skipped(l.world.cluster[id])
    ensures forall a <- LagEffects(l, e) :: !Concerns(a, id)
  {
    match e {
      case Publish(listing, oracle) => SkippedPodIsIgnored(l.world, StatusPass(listing, oracle), id);
      case Other(step) => SkippedPodIsIgnored(l.world, step, id);
      case _ =>
    }
  }

  /** A skipped pod that no waiting publication is about stays skipped however late publications are
      applied: it is never asked about or published, and keeps a terminal phase and, unless it is
      deleted, its status. */
  lemma {:induction false} SettledPodsStaySettled(l: Lag, run: seq<LagStep>, id: PodId)
    requires Keyed(l.world) && LagLegal(l, run)
    requires id in l.world.cluster && Skipped(l.world.cluster[id]) && NothingPends(l, id)
    requires Sparing(run, id)
    ensures
      var before, after := l.world.cluster, LagRunTo(l, run).world.cluster;
      && id in after && Skipped(after[id])
      && (Terminal(before[id]) ==> Terminal(after[id]))
      && ((forall e <- run :: !(e.Other? && Deletes(e.step, id))) ==> after[id].status == before[id].status)
    ensures forall a <- LagLog(l, run) :: !Concerns(a, id)
    decreases run
  {
    if run != [] {
      assert run[0] in run && forall x <- run[1..] :: x in run;
      ThenKeepsKeyed(l, run[0]);
      SettledStep(l, run[0], id);
      SettledPodIsIgnored(l, run[0], id);
      SettledPodsStaySettled(Then(l, run[0]), run[1..], id);
    }
  }

  lemma TerminalStep(l: Lag, e: LagStep, id: PodId)
    requires Keyed(l.world) && Allowed(l, e) && Spares(e, id)
    requires EndsTerminal(l.world.cluster, id) && TerminalPends(l, id)
    ensures EndsTerminal(Then(l, e).world.cluster, id) && TerminalPends(Then(l, e), id)
  {
    match e {
      case Publish(listing, oracle) => PublishSkips(l, listing, oracle, id);
      case Deliver(i) => assert l.pending[i] in l.pending;
      case Drop(i) =>
      case Other(step) => SkippedPodStep(l.world, step, id);
    }
  }

  lemma {:induction false} TerminalRun(l: Lag, run: seq<LagStep>, id: PodId)
    requires Keyed(l.world) && LagLegal(l, run)
    requires EndsTerminal(l.world.cluster, id) && TerminalPends(l, id)
    requires Sparing(run, id)
    ensures EndsTerminal(LagRunTo(l, run).world.cluster, id)
    decreases run
  {
    if run != [] {
      assert run[0] in run && forall x <- run[1..] :: x in run;
      ThenKeepsKeyed(l, run[0]);
      TerminalStep(l, run[0], id);
      TerminalRun(Then(l, run[0]), run[1..], id);
    }
  }

  /** A terminal pod stays terminal over every run, as long as it is neither created again nor leaves
      the cluster, if and only if everything still waiting to be applied to it is terminal. */
  lemma TerminalForeverExactlyWhen(l: Lag, id: PodId)
    requires Keyed(l.world) && EndsTerminal(l.world.cluster, id)
    ensures
      (forall run | LagLegal(l, run) && Sparing(run, id) :: EndsTerminal(LagRunTo(l, run).world.cluster, id))
      <==> TerminalPends(l, id)
  {
    if TerminalPends(l, id) {
      forall run | LagLegal(l, run) && Sparing(run, id)
        ensures EndsTerminal(LagRunTo(l, run).world.cluster, id)
      {
        TerminalRun(l, run, id);
      }
    } else {
      var p :| p in l.pending && p.id == id && !Terminal(p);
      var i :| 0 <= i < |l.pending| && l.pending[i] == p;
      var run := [Deliver(i)];
      assert run[1..] == [];
      assert LagLegal(Then(l, run[0]), run[1..]) && Sparing(run, id);
      assert LagRunTo(l, run) == Then(l, run[0]);
    }
  }

  // ---------- Applied at once ----------

  lemma {:induction false} AppliedFromFront(cluster: map<PodId, PodValue>, pods: seq<PodValue>)
    requires pods != []
    ensures Applied(cluster, pods) == Applied(Stored(cluster, pods[0]), pods[1..])
  {
    var n := |pods| - 1;
    if n > 0 {
      AppliedFromFront(cluster, pods[..n]);
      assert pods[..n][1..] == pods[1..][..n - 1];
    } else {
      assert pods[..0] == [] && pods[1..] == [];
    }
  }

  function InOrder(n: nat): (run: seq<LagStep>)
    ensures |run| == n
  {
    seq(n, _ => Deliver(0))
  }

  lemma {:induction false} DeliveredInOrder(l: Lag)
    ensures LagLegal(l, InOrder(|l.pending|))
    ensures LagRunTo(l, InOrder(|l.pending|)) ==
      Lag(l.world.(cluster := Applied(l.world.cluster, l.pending)), [])
    ensures LagLog(l, InOrder(|l.pending|)) == []
    decreases |l.pending|
  {
    var run := InOrder(|l.pending|);
    if l.pending != [] {
      assert run[1..] == InOrder(|l.pending| - 1);
      AppliedFromFront(l.world.cluster, l.pending);
      assert Without(l.pending, 0) == l.pending[1..];
      DeliveredInOrder(Then(l, run[0]));
    }
  }

  /** The status pass of `World` is the case in which everything is applied at once and in order. */
  lemma PassIsPublishThenDeliver(w: World, listing: seq<PodId>, oracle: PodId -> Answer)
    requires Enabled(w, StatusPass(listing, oracle))
    ensures
      var published := Then(Lag(w, []), Publish(listing, oracle));
      var deliveries := InOrder(|published.pending|);
      && LagLegal(published, deliveries)
      && LagRunTo(published, deliveries) == Lag(Next(w, StatusPass(listing, oracle)), [])
  {
    var published := Then(Lag(w, []), Publish(listing, oracle));
    assert published.pending == Publications(PassOver(w, listing, oracle, |listing|).actions);
    DeliveredInOrder(published);
  }
}
