/** The tracker, the provider and their surroundings as one state machine. A step is a pass of the
    tracker, a call of the provider, or a change made by the environment. */
module World {
  import opened Kube
  import opened Sequences
  import opened TrackerSpec
  import opened PassLaws
  import opened CloudRun
  import opened ServiceTranslation
  import opened PodKeys

  /** `cluster` is what the lister lists, `known` the provider's pod map, `services` Cloud Run. */
  datatype World = World(
    cluster: map<PodId, PodValue>,
    watermark: Time,
    known: map<string, PodId>,
    services: map<string, Service>)

  /** The oracle of a status pass gives the handler's answer for each pod. A provider call writes
      the status of the pod object it was passed; `kept` says whether that is the listed pod or a
      private copy. `remote` is what Cloud Run reports about a new service. */
  datatype Step =
    | StatusPass(listing: seq<PodId>, oracle: PodId -> Answer)
    | CleanupPass(keys: seq<string>)
    | Create(id: PodId, kept: bool, now: Time, remote: Service)
    | Update(draw: Draw)
    | Delete(id: PodId, kept: bool, now: Time)
    | Arrive(pod: PodValue)
    | Vanish(id: PodId)
    | MarkDeleting(id: PodId, at: Time)
    | ServiceMoves(name: string, service: Service)
    | ServiceVanishes(name: string)

  ghost predicate KeyedPods(cluster: map<PodId, PodValue>) {
    forall id <- cluster :: cluster[id].id == id
  }

  ghost predicate Keyed(w: World) {
    KeyedPods(w.cluster)
  }

  ghost predicate Enabled(w: World, e: Step) {
    match e
    case StatusPass(listing, _) => Enumerates(listing, w.cluster.Keys)
    case CleanupPass(keys) => Enumerates(keys, w.known.Keys)
    case Create(id, _, _, _) => id in w.cluster && id.name !in w.services
    case Update(d) => IsSuffix(d.suffix)
    case Arrive(p) => p.id !in w.cluster
    case _ => true
  }

  function Listed(cluster: map<PodId, PodValue>, listing: seq<PodId>): (vs: seq<PodValue>)
    requires forall id <- listing :: id in cluster
    ensures |vs| == |listing|
  {
    seq(|listing|, i requires 0 <= i < |listing| => assert listing[i] in listing; cluster[listing[i]])
  }

  function AnswersOf(listing: seq<PodId>, oracle: PodId -> Answer): (r: seq<Answer>)
    ensures |r| == |listing|
  {
    seq(|listing|, i requires 0 <= i < |listing| => oracle(listing[i]))
  }

  /** A published status is applied to the pod with that namespace and name. */
  function Stored(cluster: map<PodId, PodValue>, p: PodValue): map<PodId, PodValue> {
    if p.id in cluster then cluster[p.id := cluster[p.id].(status := p.status)] else cluster
  }

  function Applied(cluster: map<PodId, PodValue>, pods: seq<PodValue>): map<PodId, PodValue> {
    if pods == [] then cluster
    else Stored(Applied(cluster, pods[..|pods| - 1]), pods[|pods| - 1])
  }

  function PassOver(w: World, listing: seq<PodId>, oracle: PodId -> Answer, n: nat): PassResult
    requires forall id <- listing :: id in w.cluster
    requires n <= |listing|
  {
    PassTo(Listed(w.cluster, listing), w.watermark, AnswersOf(listing, oracle), n)
  }

  /** What ListActivePods returns when the map is iterated in this order. */
  function Active(known: map<string, PodId>, keys: seq<string>): (ids: seq<PodId>)
    requires forall k <- keys :: k in known
    ensures |ids| == |keys|
  {
    seq(|keys|, i requires 0 <= i < |keys| => assert keys[i] in keys; known[keys[i]])
  }

  function Names(ids: seq<PodId>): set<string> {
    set id <- ids :: id.name
  }

  function WithStatus(w: World, id: PodId, s: PodStatus): World
    requires id in w.cluster
  {
    w.(cluster := w.cluster[id := w.cluster[id].(status := s)])
  }

  ghost function Next(w: World, e: Step): World
    requires Enabled(w, e)
  {
    match e
    case StatusPass(listing, oracle) =>
      var r := PassOver(w, listing, oracle, |listing|);
      w.(cluster := Applied(w.cluster, Publications(r.actions)), watermark := r.watermark)
    case CleanupPass(keys) =>
      w.(services := w.services - Names(Dangling(Active(w.known, keys), w.cluster.Keys)))
    case Create(id, kept, now, remote) =>
      var spec := w.cluster[id].containers;
      var w' := w.(services := w.services[id.name := remote.(containers := Template(spec))]);
      if kept then WithStatus(w', id, CreatedStatus(spec, now)) else w'
    case Update(d) => w.(known := Remembered(w.known, d))
    case Delete(id, kept, now) =>
      var w' := w.(services := w.services - {id.name});
      if kept && id in w.cluster then WithStatus(w', id, DeletedStatus(w.cluster[id].status, now)) else w'
    case Arrive(p) => w.(cluster := w.cluster[p.id := p])
    case Vanish(id) => w.(cluster := w.cluster - {id})
    case MarkDeleting(id, at) =>
      if id in w.cluster then w.(cluster := w.cluster[id := w.cluster[id].(deletionTimestamp := Some(at))]) else w
    case ServiceMoves(name, s) =>
      if name in w.services then w.(services := w.services[name := s]) else w
    case ServiceVanishes(name) => w.(services := w.services - {name})
  }

  /** What the tracker does during a step. Failures of single cleanup calls are left out. */
  ghost function Effects(w: World, e: Step): seq<Action>
    requires Enabled(w, e)
  {
    match e
    case StatusPass(listing, oracle) => PassOver(w, listing, oracle, |listing|).actions
    case CleanupPass(keys) =>
      CleanupResult(Some(Active(w.known, keys)), w.cluster.Keys, seq(|keys|, _ => Done))
    case _ => []
  }

  ghost predicate Legal(w: World, run: seq<Step>)
    decreases run
  {
    run != [] ==> Enabled(w, run[0]) && Legal(Next(w, run[0]), run[1..])
  }

  ghost function RunTo(w: World, run: seq<Step>): World
    requires Legal(w, run)
    decreases run
  {
    if run == [] then w else RunTo(Next(w, run[0]), run[1..])
  }

  ghost function Log(w: World, run: seq<Step>): seq<Action>
    requires Legal(w, run)
    decreases run
  {
    if run == [] then [] else Effects(w, run[0]) + Log(Next(w, run[0]), run[1..])
  }

  // ---------- A status pass, pod by pod ----------

  /** A stored pod once a pass has processed a listed version of it, which may be an older one. */
  function Overlaid(stored: PodValue, listed: PodValue, a: Answer): PodValue {
    match StatusAfter(listed, a)
    case Some(s) => stored.(status := s)
    case None => stored
  }

  /** What processing the listed version `p` comes to for the stored pods. */
  function Patched(stored: map<PodId, PodValue>, p: PodValue, a: Answer): map<PodId, PodValue> {
    if p.id in stored then stored[p.id := Overlaid(stored[p.id], p, a)] else stored
  }

  /** The cluster `stored` with the publications of the first `n` pods of a pass applied. */
  function AppliedTo(stored: map<PodId, PodValue>, listed: map<PodId, PodValue>, listing: seq<PodId>,
                     oracle: PodId -> Answer, n: nat)
    : map<PodId, PodValue>
    requires n <= |listing| && forall id <- listing :: id in listed
  {
    Applied(stored, Outcome(Listed(listed, listing), AnswersOf(listing, oracle), n))
  }

  lemma OutcomeStored(stored: map<PodId, PodValue>, earlier: seq<PodValue>, p: PodValue, a: Answer)
    ensures Applied(stored, earlier + OutcomeOf(p, a)) == Patched(Applied(stored, earlier), p, a)
  {
    if StatusAfter(p, a).Some? {
      assert (earlier + OutcomeOf(p, a))[..|earlier|] == earlier;
    } else {
      assert earlier + OutcomeOf(p, a) == earlier;
    }
  }

  lemma AppliedOneMore(stored: map<PodId, PodValue>, listed: map<PodId, PodValue>, listing: seq<PodId>,
                       oracle: PodId -> Answer, n: nat)
    requires KeyedPods(listed) && Enumerates(listing, listed.Keys) && n < |listing|
    ensures listing[n] in listed
    ensures AppliedTo(stored, listed, listing, oracle, n + 1) ==
      Patched(AppliedTo(stored, listed, listing, oracle, n), listed[listing[n]], oracle(listing[n]))
  {
    assert listing[n] in listing;
    OutcomeStored(stored, Outcome(Listed(listed, listing), AnswersOf(listing, oracle), n),
                  listed[listing[n]], oracle(listing[n]));
  }

  lemma {:induction false} AppliedPointwise(stored: map<PodId, PodValue>, listed: map<PodId, PodValue>,
                                            listing: seq<PodId>, oracle: PodId -> Answer, n: nat, id: PodId)
    requires KeyedPods(listed) && Enumerates(listing, listed.Keys) && n <= |listing|
    requires id in stored
    ensures id in listing[..n] ==> id in listed
    ensures id in AppliedTo(stored, listed, listing, oracle, n)
    ensures AppliedTo(stored, listed, listing, oracle, n)[id] ==
      if id in listing[..n] then Overlaid(stored[id], listed[id], oracle(id)) else stored[id]
  {
    if n > 0 {
      AppliedPointwise(stored, listed, listing, oracle, n - 1, id);
      AppliedOneMore(stored, listed, listing, oracle, n - 1);
      assert listing[n - 1] !in listing[..n - 1];
      assert listing[..n] == listing[..n - 1] + [listing[n - 1]];
    }
  }

  lemma {:induction false} AppliedKeepsKeys(cluster: map<PodId, PodValue>, pods: seq<PodValue>)
    ensures Applied(cluster, pods).Keys == cluster.Keys
  {
    if pods != [] {
      AppliedKeepsKeys(cluster, pods[..|pods| - 1]);
    }
  }

  /** With the publications of a pass over `listed` applied to `stored`, each pod that is in both is
      overlaid by its own answer: the order of the listing does not matter. */
  lemma PassOverlaysEachPod(stored: map<PodId, PodValue>, listed: map<PodId, PodValue>, watermark: Time,
                            listing: seq<PodId>, oracle: PodId -> Answer)
    requires KeyedPods(listed) && Enumerates(listing, listed.Keys)
    ensures
      Applied(stored, Publications(Pass(Listed(listed, listing), watermark, AnswersOf(listing, oracle)).actions)) ==
      map id | id in stored :: if id in listed then Overlaid(stored[id], listed[id], oracle(id)) else stored[id]
  {
    PassPublishes(Listed(listed, listing), watermark, AnswersOf(listing, oracle), |listing|);
    AppliedKeepsKeys(stored, Outcome(Listed(listed, listing), AnswersOf(listing, oracle), |listing|));
    forall id | id in stored
      ensures AppliedTo(stored, listed, listing, oracle, |listing|)[id] ==
        if id in listed then Overlaid(stored[id], listed[id], oracle(id)) else stored[id]
    {
      AppliedPointwise(stored, listed, listing, oracle, |listing|, id);
      assert listing[..|listing|] == listing;
    }
  }

  /** In particular, when the listing is up to date, every listed pod is refreshed. */
  lemma PassRefreshesEachPod(w: World, listing: seq<PodId>, oracle: PodId -> Answer)
    requires Keyed(w) && Enumerates(listing, w.cluster.Keys)
    ensures Next(w, StatusPass(listing, oracle)).cluster ==
      map id | id in w.cluster :: Refreshed(w.cluster[id], oracle(id))
  {
    PassOverlaysEachPod(w.cluster, w.cluster, w.watermark, listing, oracle);
  }

  lemma NextKeepsKeyed(w: World, e: Step)
    requires Keyed(w) && Enabled(w, e)
    ensures Keyed(Next(w, e))
  {
    if e.StatusPass? {
      PassRefreshesEachPod(w, e.listing, e.oracle);
    }
  }

  lemma {:induction false} RunKeepsKeyed(w: World, run: seq<Step>)
    requires Keyed(w) && Legal(w, run)
    ensures Keyed(RunTo(w, run))
    decreases run
  {
    if run != [] {
      NextKeepsKeyed(w, run[0]);
      RunKeepsKeyed(Next(w, run[0]), run[1..]);
    }
  }
}
