/** What one call, one status pass and one cleanup pass of the tracker do, as functions of values. */
module TrackerSpec {
  import opened Kube
  import opened Sequences

  const REASON_PROVIDER_FAILED := "ProviderFailed"
  const REASON_NOT_FOUND := "NotFound"
  const MESSAGE_NOT_FOUND := "The pod may have been deleted from the provider"
  const EXIT_CODE_NOT_FOUND := -137
  const EVENT_TYPE_WARNING := "Warning"
  const EVENT_TYPE_NORMAL := "Normal"

  datatype Event = Event(
    timestamp: Option<Time>,
    object: string,
    eventType: string,
    reason: string,
    message: string)

  /** What the handler answers when asked for a pod's status. */
  datatype StatusReply = Found(status: PodStatus) | Nil | NotFound | OtherError

  /** Everything the handler and the clock contribute to the processing of one pod. */
  datatype Answer = Answer(events: seq<Event>, eventsFailed: bool, reply: StatusReply, now: Time)

  datatype CallResult = Done | Missing | Broken

  /** What the tracker does to the outside world, in the order it does it. */
  datatype Action =
    | FetchedEvents(id: PodId)
    | Recorded(event: Event)
    | FetchedStatus(id: PodId)
    | Published(pod: PodValue)
    | ListedActive
    | CleanedUp(id: PodId)
    | LoggedFailure(id: PodId)

  // ---------- Events ----------

  predicate Newer(e: Event, watermark: Time) {
    e.timestamp.None? || e.timestamp.value > watermark
  }

  function Normalized(e: Event): Event {
    if e.eventType == EVENT_TYPE_NORMAL || e.eventType == EVENT_TYPE_WARNING then e
    else e.(eventType := EVENT_TYPE_WARNING)
  }

  function Admitted(batch: seq<Event>, watermark: Time): seq<Action> {
    if batch == [] then []
    else
      var last := batch[|batch| - 1];
      Admitted(batch[..|batch| - 1], watermark)
      + if Newer(last, watermark) then [Recorded(Normalized(last))] else []
  }

  function Peak(batch: seq<Event>, floor: Time): Time {
    if batch == [] then floor
    else
      var last := batch[|batch| - 1];
      var rest := Peak(batch[..|batch| - 1], floor);
      if last.timestamp.Some? && last.timestamp.value > rest then last.timestamp.value else rest
  }

  // ---------- One pod ----------

  predicate Skipped(p: PodValue) {
    || p.status.phase == Succeeded
    || p.status.phase == Failed
    || p.status.reason == REASON_PROVIDER_FAILED
    || p.deletionTimestamp.Some?
  }

  function LostContainer(c: ContainerStatus, now: Time): ContainerStatus {
    if c.state.running.None? then c
    else
      c.(state := c.state.(
        running := None,
        terminated := Some(Termination(EXIT_CODE_NOT_FOUND, REASON_NOT_FOUND, MESSAGE_NOT_FOUND,
                                       c.state.running.value, now, c.containerID))))
  }

  function LostStatus(s: PodStatus, now: Time): PodStatus {
    s.(phase := Failed,
       reason := REASON_NOT_FOUND,
       message := MESSAGE_NOT_FOUND,
       containerStatuses := seq(|s.containerStatuses|,
         i requires 0 <= i < |s.containerStatuses| => LostContainer(s.containerStatuses[i], now)))
  }

  /** The status to publish for a pod, if any. */
  function StatusAfter(p: PodValue, a: Answer): Option<PodStatus> {
    if Skipped(p) then None
    else
      match a.reply
      case Found(s) => Some(s)
      case OtherError => None
      case _ => if p.status.phase == Running then Some(LostStatus(p.status, a.now)) else None
  }

  function Refreshed(p: PodValue, a: Answer): PodValue {
    match StatusAfter(p, a)
    case Some(s) => p.(status := s)
    case None => p
  }

  /** The calls made while processing one pod, before anything is published. */
  function Processed(p: PodValue, watermark: Time, a: Answer): seq<Action> {
    [FetchedEvents(p.id)] + Admitted(a.events, watermark)
    + if Skipped(p) then [] else [FetchedStatus(p.id)]
  }

  function Visited(p: PodValue, watermark: Time, a: Answer): seq<Action> {
    Processed(p, watermark, a)
    + if StatusAfter(p, a).Some? then [Published(Refreshed(p, a))] else []
  }

  function OutcomeOf(p: PodValue, a: Answer): seq<PodValue> {
    if StatusAfter(p, a).Some? then [Refreshed(p, a)] else []
  }

  // ---------- One status pass ----------

  datatype PassResult = PassResult(actions: seq<Action>, watermark: Time)

  /** The first `n` pods of a listing, in order, each with its answer. */
  function PassTo(listing: seq<PodValue>, watermark: Time, answers: seq<Answer>, n: nat): PassResult
    requires |answers| == |listing| && n <= |listing|
  {
    if n == 0 then PassResult([], watermark)
    else
      var before := PassTo(listing, watermark, answers, n - 1);
      PassResult(before.actions + Visited(listing[n - 1], before.watermark, answers[n - 1]),
                 Peak(answers[n - 1].events, before.watermark))
  }

  function Pass(listing: seq<PodValue>, watermark: Time, answers: seq<Answer>): PassResult
    requires |answers| == |listing|
  {
    PassTo(listing, watermark, answers, |listing|)
  }

  function Publications(log: seq<Action>): seq<PodValue> {
    if log == [] then []
    else (if log[0].Published? then [log[0].pod] else []) + Publications(log[1..])
  }

  lemma {:induction false} PublicationsConcat(a: seq<Action>, b: seq<Action>)
    ensures Publications(a + b) == Publications(a) + Publications(b)
  {
    if a == [] {
      assert a + b == b;
    } else {
      var head := if a[0].Published? then [a[0].pod] else [];
      assert (a + b)[0] == a[0] && (a + b)[1..] == a[1..] + b;
      PublicationsConcat(a[1..], b);
      AppendIsAssociative(head, Publications(a[1..]), Publications(b));
    }
  }

  lemma {:induction false} NoPublications(log: seq<Action>)
    requires forall a <- log :: !a.Published?
    ensures Publications(log) == []
  {
    if log != [] {
      NoPublications(log[1..]);
    }
  }

  lemma {:induction false} AdmittedAreRecords(batch: seq<Event>, watermark: Time)
    ensures forall a <- Admitted(batch, watermark) :: a.Recorded?
  {
    if batch != [] {
      AdmittedAreRecords(batch[..|batch| - 1], watermark);
    }
  }

  lemma VisitPublishes(p: PodValue, watermark: Time, a: Answer)
    ensures Publications(Visited(p, watermark, a)) == OutcomeOf(p, a)
  {
    AdmittedAreRecords(a.events, watermark);
    NoPublications(Processed(p, watermark, a));
    PublicationsConcat(Processed(p, watermark, a),
      if StatusAfter(p, a).Some? then [Published(Refreshed(p, a))] else []);
  }

  function AskCount(log: seq<Action>, id: PodId): nat {
    if log == [] then 0
    else (if log[0] == FetchedStatus(id) then 1 else 0) + AskCount(log[1..], id)
  }

  // ---------- One cleanup pass ----------

  /** The active identifiers that no listed pod has, in order and with multiplicity. */
  function Dangling(active: seq<PodId>, listed: set<PodId>): seq<PodId> {
    if active == [] then []
    else
      var n := |active| - 1;
      Dangling(active[..n], listed) + if active[n] in listed then [] else [active[n]]
  }

  function CleanupActions(active: seq<PodId>, listed: set<PodId>, results: seq<CallResult>): seq<Action>
    requires |results| == |active|
  {
    if active == [] then []
    else
      var n := |active| - 1;
      CleanupActions(active[..n], listed, results[..n])
      + if active[n] in listed then []
        else if results[n] == Broken then [CleanedUp(active[n]), LoggedFailure(active[n])]
        else [CleanedUp(active[n])]
  }

  /** What a cleanup pass does; `active` is None when listing the active pods fails. */
  function CleanupResult(active: Option<seq<PodId>>, listed: set<PodId>, results: seq<CallResult>): seq<Action>
    requires active.Some? ==> |results| == |active.value|
  {
    [ListedActive] + if active.None? then [] else CleanupActions(active.value, listed, results)
  }

  // ---------- Reading a log ----------

  datatype Kind = EventFetch | Question | Cleanup | Failure

  function IdOf(a: Action, k: Kind): seq<PodId> {
    match a
    case FetchedEvents(id) => if k == EventFetch then [id] else []
    case FetchedStatus(id) => if k == Question then [id] else []
    case CleanedUp(id) => if k == Cleanup then [id] else []
    case LoggedFailure(id) => if k == Failure then [id] else []
    case _ => []
  }

  /** The pods that the actions of one kind are about, in order. */
  function Ids(log: seq<Action>, k: Kind): seq<PodId> {
    if log == [] then [] else IdOf(log[0], k) + Ids(log[1..], k)
  }

  function Records(log: seq<Action>): seq<Event> {
    if log == [] then [] else (if log[0].Recorded? then [log[0].event] else []) + Records(log[1..])
  }

  lemma {:induction false} IdsConcat(a: seq<Action>, b: seq<Action>, k: Kind)
    ensures Ids(a + b, k) == Ids(a, k) + Ids(b, k)
  {
    if a == [] {
      assert a + b == b;
    } else {
      assert (a + b)[0] == a[0] && (a + b)[1..] == a[1..] + b;
      IdsConcat(a[1..], b, k);
      AppendIsAssociative(IdOf(a[0], k), Ids(a[1..], k), Ids(b, k));
    }
  }

  lemma SingleId(a: Action, k: Kind)
    ensures Ids([a], k) == IdOf(a, k)
  {
    assert [a][1..] == [];
  }

  lemma {:induction false} NoIds(log: seq<Action>, k: Kind)
    requires forall a <- log :: IdOf(a, k) == []
    ensures Ids(log, k) == []
  {
    if log != [] {
      NoIds(log[1..], k);
    }
  }

  lemma {:induction false} RecordsConcat(a: seq<Action>, b: seq<Action>)
    ensures Records(a + b) == Records(a) + Records(b)
  {
    if a == [] {
      assert a + b == b;
    } else {
      var head := if a[0].Recorded? then [a[0].event] else [];
      assert (a + b)[0] == a[0] && (a + b)[1..] == a[1..] + b;
      RecordsConcat(a[1..], b);
      AppendIsAssociative(head, Records(a[1..]), Records(b));
    }
  }

  lemma {:induction false} NoRecords(log: seq<Action>)
    requires forall a <- log :: !a.Recorded?
    ensures Records(log) == []
  {
    if log != [] {
      NoRecords(log[1..]);
    }
  }
}
