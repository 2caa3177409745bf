/** What cleanup deletes, in one pass and over whole runs, when services are addressed by name only. */
module CleanupLaws {
  import opened Kube
  import opened Sequences
  import opened TrackerSpec
  import opened PassLaws
  import opened CloudRun
  import opened PodKeys
  import opened World
  import opened RunLaws

  // ---------- One pass ----------

  lemma ActiveMembers(w: World, keys: seq<string>, id: PodId)
    requires Enumerates(keys, w.known.Keys)
    ensures id in Active(w.known, keys) <==> id in w.known.Values
  {
    if id in w.known.Values {
      var k :| k in w.known && w.known[k] == id;
      assert k in keys;
      var i :| 0 <= i < |keys| && keys[i] == k;
      assert Active(w.known, keys)[i] == id;
    }
    if id in Active(w.known, keys) {
      var i :| 0 <= i < |keys| && Active(w.known, keys)[i] == id;
      assert keys[i] in keys;
    }
  }

  /** A known pod of this name is not listed. */
  ghost predicate Endangered(w: World, name: string) {
    exists id <- w.known.Values :: id.name == name && id !in w.cluster
  }

  /** Names are all that deletion sees: a service survives a cleanup pass exactly when no known pod
      of that name, in whatever namespace, is missing from the listing. */
  lemma CleanupSparesExactly(w: World, keys: seq<string>, name: string)
    requires Enumerates(keys, w.known.Keys)
    ensures name in Next(w, CleanupPass(keys)).services <==> name in w.services && !Endangered(w, name)
  {
    var active := Active(w.known, keys);
    forall id
      ensures id in Dangling(active, w.cluster.Keys) <==> id in w.known.Values && id !in w.cluster
    {
      DanglingMembers(active, w.cluster.Keys, id);
      ActiveMembers(w, keys, id);
    }
  }

  /** A cleanup pass spares the services of all listed pods if and only if no known pod missing from
      the listing shares its name with a listed pod that has one. */
  lemma CleanupIsSafeExactlyWhen(w: World, keys: seq<string>)
    requires Enumerates(keys, w.known.Keys)
    ensures
      (forall id <- w.cluster :: id.name in w.services ==> id.name in Next(w, CleanupPass(keys)).services)
      <==>
      (forall id <- w.cluster, gone <- w.known.Values ::
         id.name in w.services && gone.name == id.name ==> gone in w.cluster)
  {
    forall id | id in w.cluster
      ensures id.name in Next(w, CleanupPass(keys)).services <==> id.name in w.services && !Endangered(w, id.name)
    {
      CleanupSparesExactly(w, keys, id.name);
    }
  }

  // ---------- Whole runs ----------

  ghost predicate InNamespace(w: World, ns: string) {
    && (forall id <- w.cluster :: id.namespace == ns)
    && (forall id <- w.known.Values :: id.namespace == ns)
  }

  predicate StaysIn(e: Step, ns: string) {
    match e
    case Arrive(p) => p.id.namespace == ns
    case Update(d) => d.id.namespace == ns
    case _ => true
  }

  lemma StepStaysIn(w: World, e: Step, ns: string)
    requires Keyed(w) && Enabled(w, e) && InNamespace(w, ns) && StaysIn(e, ns)
    ensures InNamespace(Next(w, e), ns)
  {
    if e.StatusPass? {
      PassRefreshesEachPod(w, e.listing, e.oracle);
    } else if e.Update? {
      var known := Remembered(w.known, e.draw);
      forall id | id in known.Values
        ensures id.namespace == ns
      {
        var k :| k in known && known[k] == id;
        assert k in w.known && w.known[k] == id ==> id in w.known.Values;
      }
    }
  }

  lemma {:induction false} RunStaysIn(w: World, run: seq<Step>, ns: string)
    requires Keyed(w) && Legal(w, run) && InNamespace(w, ns)
    requires forall e <- run :: StaysIn(e, ns)
    ensures InNamespace(RunTo(w, run), ns)
    decreases run
  {
    if run != [] {
      assert run[0] in run && forall x <- run[1..] :: x in run;
      NextKeepsKeyed(w, run[0]);
      StepStaysIn(w, run[0], ns);
      RunStaysIn(Next(w, run[0]), run[1..], ns);
    }
  }

  /** While every pod lives in one namespace, no cleanup pass at any point of any run deletes the
      service of a listed pod. */
  lemma OneNamespaceIsSafe(w: World, run: seq<Step>, ns: string, keys: seq<string>, id: PodId)
    requires Keyed(w) && Legal(w, run) && InNamespace(w, ns)
    requires forall e <- run :: StaysIn(e, ns)
    requires Enumerates(keys, RunTo(w, run).known.Keys)
    requires id in RunTo(w, run).cluster && id.name in RunTo(w, run).services
    ensures id.name in Next(RunTo(w, run), CleanupPass(keys)).services
  {
    RunStaysIn(w, run, ns);
    CleanupSparesExactly(RunTo(w, run), keys, id.name);
  }

  /** With two namespaces it is not safe: the pod of one that is gone takes down the service of the
      other that is running. */
  lemma TwoNamespacesCollide(p: PodValue, s: Service)
    requires p.id == PodId("b", "web")
    ensures
      var gone := PodId("a", "web");
      var w := World(map[p.id := p], 0, map[Key(gone, "aaaaaa") := gone], map["web" := s]);
      && Enabled(w, CleanupPass([Key(gone, "aaaaaa")]))
      && "web" !in Next(w, CleanupPass([Key(gone, "aaaaaa")])).services
  {
    var gone := PodId("a", "web");
    var key := Key(gone, "aaaaaa");
    var w := World(map[p.id := p], 0, map[key := gone], map["web" := s]);
    assert w.known[key] == gone && gone in w.known.Values && gone !in w.cluster;
    CleanupSparesExactly(w, [key], "web");
  }

  /** The provider never forgets: an accepted pod that is no longer listed is cleaned up by every
      cleanup pass of every later run, over and over. */
  lemma GonePodsAreCleanedForever(w: World, run: seq<Step>, keys: seq<string>, id: PodId)
    requires Legal(w, run) && w.known == map[]
    requires id in AcceptedIn(run) && Unambiguous(AcceptedIn(run))
    requires id !in RunTo(w, run).cluster
    requires Enumerates(keys, RunTo(w, run).known.Keys)
    ensures id in Ids(Effects(RunTo(w, run), CleanupPass(keys)), Cleanup)
  {
    var last := RunTo(w, run);
    ActivePodsAreTheAccepted(w, run, {});
    assert {} + AcceptedIn(run) == AcceptedIn(run);
    ActiveMembers(last, keys, id);
    DanglingMembers(Active(last.known, keys), last.cluster.Keys, id);
    CleanupCallsTheDangling(Some(Active(last.known, keys)), last.cluster.Keys, seq(|keys|, _ => Done));
  }
}
