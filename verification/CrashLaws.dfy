/** When a status pass with the provider as handler dereferences the service it failed to read. */
module CrashLaws {
  import opened Kube
  import opened Sequences
  import opened TrackerSpec
  import opened PassLaws
  import opened CloudRun
  import opened World
  import opened RunLaws
  import opened CleanupLaws

  ghost function LivePods(w: World): set<PodId> {
    set id <- w.cluster | !Skipped(w.cluster[id])
  }

  /** The live listed pods without a service of their name. */
  ghost function Unserviced(w: World): set<PodId> {
    set id <- LivePods(w) | id.name !in w.services
  }

  /** A status pass asks exactly about the listed pods that are not skipped. */
  lemma PassAsksExactly(w: World, listing: seq<PodId>, oracle: PodId -> Answer, id: PodId)
    requires Keyed(w) && Enumerates(listing, w.cluster.Keys)
    ensures FetchedStatus(id) in Effects(w, StatusPass(listing, oracle)) <==>
      id in w.cluster && !Skipped(w.cluster[id])
  {
    var e := StatusPass(listing, oracle);
    if id in w.cluster {
      StepAsksAbout(w, e, id);
      AskedIsCounted(Effects(w, e), id);
    } else {
      var vs := Listed(w.cluster, listing);
      forall k | 0 <= k < |vs|
        ensures vs[k].id != id
      {
        assert listing[k] in listing;
      }
      PassConcernsOnlyLive(vs, w.watermark, AnswersOf(listing, oracle), |listing|, id);
      assert Concerns(FetchedStatus(id), id);
    }
  }

  /** The step is a pass that reads a missing service. */
  ghost predicate Crashes(w: World, e: Step)
    requires Enabled(w, e)
  {
    e.StatusPass? && exists id :: FetchedStatus(id) in Effects(w, e) && id.name !in w.services
  }

  /** So a pass reads a missing service, and crashes, exactly when some live listed pod has none. */
  lemma PassCrashesExactlyWhen(w: World, listing: seq<PodId>, oracle: PodId -> Answer)
    requires Keyed(w) && Enumerates(listing, w.cluster.Keys)
    ensures Crashes(w, StatusPass(listing, oracle)) <==> Unserviced(w) != {}
  {
    var e := StatusPass(listing, oracle);
    if Crashes(w, e) {
      var id :| FetchedStatus(id) in Effects(w, e) && id.name !in w.services;
      PassAsksExactly(w, listing, oracle, id);
      assert id in Unserviced(w);
    }
    if id :| id in Unserviced(w) {
      PassAsksExactly(w, listing, oracle, id);
      assert FetchedStatus(id) in Effects(w, e) && id.name !in w.services;
    }
  }

  // ---------- What each step does to the pods without a service ----------

  /** The pods whose want of a service a step ends: they get one, or stop being live. */
  ghost function Relieved(w: World, e: Step): set<PodId> {
    match e
    case StatusPass(_, oracle) => set id <- LivePods(w) | Skipped(Refreshed(w.cluster[id], oracle(id)))
    case Create(id, _, _, _) => set other <- LivePods(w) | other.name == id.name
    case Delete(id, kept, _) => if kept then {id} else {}
    case Vanish(id) => {id}
    case MarkDeleting(id, _) => {id}
    case _ => {}
  }

  /** The live pods a step leaves without a service whether they had one or not. Cleanup strands
      those that share their name with a known pod that is gone, a deletion all of its name but the
      pod it ends, and an arrival the pod itself unless its service is there already. */
  ghost function Stranded(w: World, e: Step): set<PodId> {
    match e
    case CleanupPass(_) => set id <- LivePods(w) | Endangered(w, id.name)
    case Delete(id, kept, _) => set other <- LivePods(w) | other.name == id.name && !(kept && other == id)
    case Arrive(p) => if Skipped(p) || p.id.name in w.services then {} else {p.id}
    case ServiceVanishes(name) => set id <- LivePods(w) | id.name == name
    case _ => {}
  }

  ghost predicate BooksBalance(w: World, e: Step)
    requires Enabled(w, e)
  {
    Unserviced(Next(w, e)) == Unserviced(w) - Relieved(w, e) + Stranded(w, e)
  }

  lemma StatusPassBalances(w: World, listing: seq<PodId>, oracle: PodId -> Answer)
    requires Keyed(w) && Enumerates(listing, w.cluster.Keys)
    ensures BooksBalance(w, StatusPass(listing, oracle))
  {
    PassRefreshesEachPod(w, listing, oracle);
  }

  lemma CleanupBalances(w: World, keys: seq<string>)
    requires Enumerates(keys, w.known.Keys)
    ensures BooksBalance(w, CleanupPass(keys))
  {
    forall id | id in w.cluster
      ensures id.name in Next(w, CleanupPass(keys)).services <==> id.name in w.services && !Endangered(w, id.name)
    {
      CleanupSparesExactly(w, keys, id.name);
    }
  }

  lemma DeleteBalances(w: World, id: PodId, kept: bool, now: Time)
    ensures BooksBalance(w, Delete(id, kept, now))
  {
    var next := Next(w, Delete(id, kept, now));
    assert next.cluster.Keys == w.cluster.Keys;
    assert LivePods(next) == if kept then LivePods(w) - {id} else LivePods(w);
  }

  lemma CreateBalances(w: World, id: PodId, kept: bool, now: Time, remote: Service)
    requires Enabled(w, Create(id, kept, now, remote))
    ensures BooksBalance(w, Create(id, kept, now, remote))
  {
    var next := Next(w, Create(id, kept, now, remote));
    assert forall other <- w.cluster :: other != id ==> next.cluster[other] == w.cluster[other];
  }

  /** Every step changes the set of live pods without a service in exactly this way. */
  lemma UnservicedAfterStep(w: World, e: Step)
    requires Keyed(w) && Enabled(w, e)
    ensures Unserviced(Next(w, e)) == Unserviced(w) - Relieved(w, e) + Stranded(w, e)
  {
    match e {
      case StatusPass(listing, oracle) => StatusPassBalances(w, listing, oracle);
      case CleanupPass(keys) => CleanupBalances(w, keys);
      case Create(id, kept, now, remote) => CreateBalances(w, id, kept, now, remote);
      case Delete(id, kept, now) => DeleteBalances(w, id, kept, now);
      case _ =>
    }
  }

  /** So a step keeps every live pod serviced exactly when it strands none. */
  lemma StepIsSafeExactlyWhenNoneStranded(w: World, e: Step)
    requires Keyed(w) && Enabled(w, e) && Unserviced(w) == {}
    ensures Unserviced(Next(w, e)) == {} <==> Stranded(w, e) == {}
  {
    UnservicedAfterStep(w, e);
  }

  // ---------- Whole runs ----------

  ghost predicate Unrelieved(w: World, run: seq<Step>, id: PodId)
    requires Legal(w, run)
    decreases run
  {
    run != [] ==> id !in Relieved(w, run[0]) && Unrelieved(Next(w, run[0]), run[1..], id)
  }

  /** Some step of the run strands the pod and none after it relieves it. */
  ghost predicate LeftStranded(w: World, run: seq<Step>, id: PodId)
    requires Legal(w, run)
    decreases run
  {
    run != [] &&
    var next := Next(w, run[0]);
    || (id in Stranded(w, run[0]) && Unrelieved(next, run[1..], id))
    || LeftStranded(next, run[1..], id)
  }

  /** Over any run a pod is without a service at the end exactly when some step stranded it, or it
      was without one at the start, and no step relieved it since. */
  lemma {:induction false} UnservicedAfterRun(w: World, run: seq<Step>, id: PodId)
    requires Keyed(w) && Legal(w, run)
    ensures id in Unserviced(RunTo(w, run)) <==>
      (id in Unserviced(w) && Unrelieved(w, run, id)) || LeftStranded(w, run, id)
    decreases run
  {
    if run != [] {
      NextKeepsKeyed(w, run[0]);
      UnservicedAfterStep(w, run[0]);
      UnservicedAfterRun(Next(w, run[0]), run[1..], id);
      assert Unrelieved(w, run, id) <==> id !in Relieved(w, run[0]) && Unrelieved(Next(w, run[0]), run[1..], id);
    }
  }

  /** So a pass at any point of any run crashes exactly when some pod is stranded by then and not
      relieved: what happened between passes and was made good does no harm. */
  lemma PassAfterRunCrashesExactlyWhen(w: World, run: seq<Step>, listing: seq<PodId>, oracle: PodId -> Answer)
    requires Keyed(w) && Legal(w, run) && Unserviced(w) == {}
    requires Enumerates(listing, RunTo(w, run).cluster.Keys)
    ensures Crashes(RunTo(w, run), StatusPass(listing, oracle)) <==> exists id :: LeftStranded(w, run, id)
  {
    RunKeepsKeyed(w, run);
    PassCrashesExactlyWhen(RunTo(w, run), listing, oracle);
    if id :| LeftStranded(w, run, id) {
      UnservicedAfterRun(w, run, id);
    }
    if id :| id in Unserviced(RunTo(w, run)) {
      UnservicedAfterRun(w, run, id);
    }
  }

  ghost predicate NeverCrashes(w: World, run: seq<Step>)
    requires Legal(w, run)
    decreases run
  {
    run != [] ==> !Crashes(w, run[0]) && NeverCrashes(Next(w, run[0]), run[1..])
  }

  ghost predicate ServicedAtPasses(w: World, run: seq<Step>)
    requires Legal(w, run)
    decreases run
  {
    run != [] ==>
      && (run[0].StatusPass? ==> Unserviced(w) == {})
      && ServicedAtPasses(Next(w, run[0]), run[1..])
  }

  /** No pass of a run reads a missing service if and only if no live pod is without one whenever a
      pass starts; at other times it may be. */
  lemma {:induction false} RunIsSafeExactlyWhenServicedAtPasses(w: World, run: seq<Step>)
    requires Keyed(w) && Legal(w, run)
    ensures NeverCrashes(w, run) <==> ServicedAtPasses(w, run)
    decreases run
  {
    if run != [] {
      NextKeepsKeyed(w, run[0]);
      if run[0].StatusPass? {
        PassCrashesExactlyWhen(w, run[0].listing, run[0].oracle);
      }
      RunIsSafeExactlyWhenServicedAtPasses(Next(w, run[0]), run[1..]);
    }
  }

  /** A pod is listed before it is created: a pass in between crashes, and one after the creation
      does not. */
  lemma CreationMustPrecedeThePass(w: World, p: PodValue, kept: bool, now: Time, remote: Service)
    requires Keyed(w) && Unserviced(w) == {} && p.id !in w.cluster
    requires !Skipped(p) && p.id.name !in w.services
    ensures Unserviced(Next(w, Arrive(p))) == {p.id}
    ensures Unserviced(Next(Next(w, Arrive(p)), Create(p.id, kept, now, remote))) == {}
  {
    var listed := Next(w, Arrive(p));
    NextKeepsKeyed(w, Arrive(p));
    UnservicedAfterStep(w, Arrive(p));
    UnservicedAfterStep(listed, Create(p.id, kept, now, remote));
  }
}
