/** The tracker object: the loop, the status pass, the cleanup pass and their helpers. What the
    lister, the handler and the clock return comes in as parameters. */
module PodsTracking {
  import opened Kube
  import opened Sequences
  import opened TrackerSpec
  import opened TrackingLoop
  import opened PassLaws
  import opened LoopLaws

  function IdsOf(listing: seq<Pod>): set<PodId> {
    set p <- listing :: p.id
  }

  /** `v` is the turn `t` with each listed pod replaced by what it looks like now. */
  ghost predicate LooksLike(t: Turn<Pod>, v: Turn<PodValue>)
    reads t.listing, set j | 0 <= j < |t.listing| :: t.listing[j].containerStatuses
  {
    && v.wakeup == t.wakeup && v.answers == t.answers && v.active == t.active && v.results == t.results
    && |v.listing| == |t.listing|
    && forall j | 0 <= j < |t.listing| :: t.listing[j].Value() == v.listing[j]
  }

  /** The objects a stretch of work allocates: copies of pods and their buffers. */
  datatype Made = Made(pods: set<Pod>, buffers: set<array<ContainerStatus>>) {
    ghost function Plus(more: Made): Made {
      Made(pods + more.pods, buffers + more.buffers)
    }
  }

  /** The pods handed out are among the objects made, with buffers of their own, and hold, in order,
      the values of the log's publications. */
  ghost predicate Handed(pods: seq<Pod>, made: Made, log: seq<Action>)
    reads made.pods, made.buffers
  {
    && |pods| == |Publications(log)|
    && forall k | 0 <= k < |pods| ::
         pods[k] in made.pods && pods[k].containerStatuses in made.buffers && pods[k].Value() == Publications(log)[k]
  }

  lemma HandedConcat(a: seq<Pod>, madeA: Made, first: seq<Action>, b: seq<Pod>, madeB: Made, second: seq<Action>)
    requires Handed(a, madeA, first) && Handed(b, madeB, second)
    ensures Handed(a + b, madeA.Plus(madeB), first + second)
  {
    PublicationsConcat(first, second);
  }

  class PodsTracker {
    var lastEventCheck: Time
    ghost var trace: seq<Action>       // calls through the handler, the recorder and the callback
    ghost var published: seq<Pod>      // the objects handed to the callback
    ghost var passes: seq<Wakeup>      // the passes the loop has performed

    constructor (lastEventCheck: Time)
      ensures this.lastEventCheck == lastEventCheck
      ensures trace == [] && published == [] && passes == []
    {
      this.lastEventCheck := lastEventCheck;
      trace, published, passes := [], [], [];
    }

    method ShouldSkipPodStatusUpdate(pod: Pod) returns (skip: bool)
      ensures skip == Skipped(pod.Value())
      ensures skip <==>
        || pod.phase in {Succeeded, Failed} || pod.reason == "ProviderFailed" || pod.deletionTimestamp != None
    {
      skip := pod.phase == Succeeded || pod.phase == Failed
        || pod.reason == REASON_PROVIDER_FAILED || pod.deletionTimestamp.Some?;
    }

    method GetPodFromList(list: seq<Pod>, ns: string, name: string) returns (found: Pod?)
      ensures found == null ==> forall p <- list :: p.id != PodId(ns, name)
      ensures found != null ==> exists k | 0 <= k < |list| ::
        && list[k] == found && found.id == PodId(ns, name)
        && forall j | 0 <= j < k :: list[j].id != PodId(ns, name)
    {
      for i := 0 to |list|
        invariant forall j | 0 <= j < i :: list[j].id != PodId(ns, name)
      {
        if list[i].id.namespace == ns && list[i].id.name == name {
          return list[i];
        }
      }
      found := null;
    }

    /** The event sink the handler calls back, over a whole batch. */
    method SinkEvents(batch: seq<Event>)
      modifies this`lastEventCheck, this`trace
      ensures lastEventCheck == Peak(batch, old(lastEventCheck))
      ensures trace == old(trace) + Admitted(batch, old(lastEventCheck))
    {
      var last := lastEventCheck;
      for i := 0 to |batch|
        invariant lastEventCheck == old(lastEventCheck)
        invariant last == Peak(batch[..i], lastEventCheck)
        invariant last >= lastEventCheck
        invariant trace == old(trace) + Admitted(batch[..i], lastEventCheck)
      {
        var e := batch[i];
        assert batch[..i + 1][..i] == batch[..i];
        if e.timestamp.None? || e.timestamp.value > lastEventCheck {
          var eventType := e.eventType;
          if eventType != EVENT_TYPE_NORMAL && eventType != EVENT_TYPE_WARNING {
            eventType := EVENT_TYPE_WARNING;
          }
          if e.timestamp.Some? && e.timestamp.value > last {
            last := e.timestamp.value;
          }
          trace := trace + [Recorded(e.(eventType := eventType))];
        }
      }
      assert batch[..|batch|] == batch;
      lastEventCheck := last;
    }

    /** The rewrite of a pod whose provider no longer knows it, container by container in place. */
    method MarkLost(pod: Pod, now: Time)
      modifies pod, pod.containerStatuses
      ensures pod.containerStatuses == old(pod.containerStatuses)
      ensures pod.Value() == old(pod.Value()).(status := LostStatus(old(pod.Status()), now))
    {
      pod.phase := Failed;
      pod.reason := REASON_NOT_FOUND;
      pod.message := MESSAGE_NOT_FOUND;
      var cs := pod.containerStatuses;
      for i := 0 to cs.Length
        invariant pod.containerStatuses == cs
        invariant pod.Value() == old(pod.Value()).(status := pod.Status())
        invariant pod.Status() == old(pod.Status()).(phase := Failed, reason := REASON_NOT_FOUND,
          message := MESSAGE_NOT_FOUND, containerStatuses := cs[..])
        invariant forall k | 0 <= k < i :: cs[k] == LostContainer(old(cs[k]), now)
        invariant forall k | i <= k < cs.Length :: cs[k] == old(cs[k])
        modifies cs
      {
        if cs[i].state.running.None? {
          continue;
        }
        var started := cs[i].state.running.value;
        cs[i] := cs[i].(state := cs[i].state.(terminated := Some(Termination(
          EXIT_CODE_NOT_FOUND, REASON_NOT_FOUND, MESSAGE_NOT_FOUND, started, now, cs[i].containerID))));
        cs[i] := cs[i].(state := cs[i].state.(running := None));
      }
      assert pod.Status() == LostStatus(old(pod.Status()), now);
    }

    method ProcessPodUpdates(pod: Pod, a: Answer) returns (ok: bool)
      modifies this`lastEventCheck, this`trace, pod, pod.containerStatuses
      ensures ok == StatusAfter(old(pod.Value()), a).Some?
      ensures pod.Value() == Refreshed(old(pod.Value()), a)
      ensures lastEventCheck == Peak(a.events, old(lastEventCheck))
      ensures trace == old(trace) + Processed(old(pod.Value()), old(lastEventCheck), a)
      ensures pod.containerStatuses == old(pod.containerStatuses) || fresh(pod.containerStatuses)
    {
      ghost var start := pod.Value();
      trace := trace + [FetchedEvents(pod.id)];
      SinkEvents(a.events);
      // a failed fetch is only logged: a.eventsFailed changes nothing

      var skip := ShouldSkipPodStatusUpdate(pod);
      if skip {
        return false;
      }

      trace := trace + [FetchedStatus(pod.id)];
      if a.reply.Found? {
        pod.SetStatus(a.reply.status);
        return true;
      }
      if a.reply.NotFound? || a.reply.Nil? {
        // Only change the status when the pod was already up.
        if pod.phase == Running {
          MarkLost(pod, a.now);
          return true;
        }
        return false;
      }
      return false;
    }

    /** The body of the pass loop: the listed pod is copied, and only the copy can change.
        `handed` holds the published copy, if there is one. */
    method VisitPod(pod: Pod, a: Answer) returns (ghost handed: seq<Pod>, ghost made: Made)
      modifies this`lastEventCheck, this`trace, this`published
      ensures lastEventCheck == Peak(a.events, old(lastEventCheck))
      ensures trace == old(trace) + Visited(pod.Value(), old(lastEventCheck), a)
      ensures published == old(published) + handed
      ensures fresh(made.pods) && fresh(made.buffers)
      ensures Handed(handed, made, Visited(pod.Value(), old(lastEventCheck), a))
    {
      handed, made := [], Made({}, {});
      VisitPublishes(pod.Value(), lastEventCheck, a);
      var updatedPod := pod.DeepCopy();
      var ok := ProcessPodUpdates(updatedPod, a);
      if ok {
        trace := trace + [Published(updatedPod.Value())];
        published := published + [updatedPod];
        handed, made := [updatedPod], Made({updatedPod}, {updatedPod.containerStatuses});
      }
    }

    /** The first `n` pods have been visited since the tracker stood at `start`, `from` and `base`;
        meanwhile `handed`, of the objects `made`, went to the callback. */
    ghost predicate Swept(vs: seq<PodValue>, answers: seq<Answer>, n: nat, start: Time, from: seq<Action>,
                          base: seq<Pod>, handed: seq<Pod>, made: Made)
      requires |answers| == |vs| && n <= |vs|
      reads this, made.pods, made.buffers
    {
      match PassTo(vs, start, answers, n)
      case PassResult(actions, watermark) =>
        && lastEventCheck == watermark
        && trace == from + actions
        && published == base + handed
        && Handed(handed, made, actions)
    }

    method VisitNth(pod: Pod, a: Answer, ghost vs: seq<PodValue>, ghost answers: seq<Answer>, ghost n: nat,
                    ghost start: Time, ghost from: seq<Action>, ghost base: seq<Pod>,
                    ghost handed: seq<Pod>, ghost made: Made)
      returns (ghost one: seq<Pod>, ghost added: Made)
      requires |answers| == |vs| && n < |vs|
      requires vs[n] == pod.Value() && answers[n] == a
      requires Swept(vs, answers, n, start, from, base, handed, made)
      modifies this`lastEventCheck, this`trace, this`published
      ensures fresh(added.pods) && fresh(added.buffers)
      ensures Swept(vs, answers, n + 1, start, from, base, handed + one, made.Plus(added))
    {
      ghost var before := PassTo(vs, start, answers, n);
      ghost var now := Visited(vs[n], before.watermark, a);
      AppendIsAssociative(from, before.actions, now);
      one, added := VisitPod(pod, a);
      AppendIsAssociative(base, handed, one);
      HandedConcat(handed, made, before.actions, one, added, now);
    }

    /** Only fields of the tracker and objects it allocates itself are written: every listed pod,
        its status buffer included, is left alone, and nothing handed out is shared with one. */
    method UpdatePodsLoop(listing: seq<Pod>, answers: seq<Answer>) returns (ghost handed: seq<Pod>, ghost made: Made)
      requires |answers| == |listing|
      modifies this`lastEventCheck, this`trace, this`published
      ensures fresh(made.pods) && fresh(made.buffers)
      ensures Swept(old(Values(listing)), answers, |listing|,
                    old(lastEventCheck), old(trace), old(published), handed, made)
    {
      ghost var vs, start, from, base := Values(listing), lastEventCheck, trace, published;
      handed, made := [], Made({}, {});
      for i := 0 to |listing|
        invariant fresh(made.pods) && fresh(made.buffers)
        invariant Swept(vs, answers, i, start, from, base, handed, made)
      {
        assert vs[i] == old(listing[i].Value());
        ghost var one, added := VisitNth(listing[i], answers[i], vs, answers, i, start, from, base, handed, made);
        handed, made := handed + one, made.Plus(added);
      }
    }

    /** Publishes a changed copy of the first listed pod with that name, whatever its phase. */
    method UpdatePodStatus(listing: seq<Pod>, ns: string, name: string,
                           updateHandler: PodStatus -> PodStatus, forceUpdate: bool)
      returns (found: bool)
      modifies this`trace, this`published
      ensures found <==> exists p <- listing :: p.id == PodId(ns, name)
      ensures !found ==> trace == old(trace) && published == old(published)
      ensures found ==> exists k | 0 <= k < |listing| ::
        && listing[k].id == PodId(ns, name) && (forall j | 0 <= j < k :: listing[j].id != PodId(ns, name))
        && |published| == |old(published)| + 1 && published[..|old(published)|] == old(published)
        && var p := published[|old(published)|];
        && fresh(p) && fresh(p.containerStatuses)
        && var v := old(listing[k].Value());
        && p.Value() == v.(
          resourceVersion := if forceUpdate then "" else v.resourceVersion,
          status := updateHandler(v.status))
        && trace == old(trace) + [Published(p.Value())]
    {
      var pod := GetPodFromList(listing, ns, name);
      if pod == null {
        return false;
      }
      var updatedPod := pod.DeepCopy();
      if forceUpdate {
        updatedPod.resourceVersion := "";
      }
      updatedPod.SetStatus(updateHandler(updatedPod.Status()));
      trace := trace + [Published(updatedPod.Value())];
      published := published + [updatedPod];
      assert fresh(published[|old(published)|]);
      found := true;
    }

    /** The loop of a cleanup pass: the active pods that are not in the list are cleaned up. */
    method CleanUpMissing(list: seq<Pod>, ids: seq<PodId>, results: seq<CallResult>)
      requires |results| == |ids|
      modifies this`trace
      ensures trace == old(trace) + CleanupActions(ids, IdsOf(list), results)
    {
      for i := 0 to |ids|
        invariant trace == old(trace) + CleanupActions(ids[..i], IdsOf(list), results[..i])
      {
        assert ids[..i + 1][..i] == ids[..i] && results[..i + 1][..i] == results[..i];
        var pod := GetPodFromList(list, ids[i].namespace, ids[i].name);
        if pod != null {
          continue;
        }
        trace := trace + [CleanedUp(ids[i])];
        var err := results[i];
        if err != Done && err != Missing {
          trace := trace + [LoggedFailure(ids[i])];
        }
      }
      assert ids[..|ids|] == ids && results[..|ids|] == results;
    }

    /** Lists the active pods, calls for exactly the dangling ones, in order, and logs a failure
        exactly for those of these calls that break. */
    method CleanupDanglingPods(listing: seq<Pod>, active: Option<seq<PodId>>, results: seq<CallResult>)
      requires active.Some? ==> |results| == |active.value|
      modifies this`trace
      ensures trace == old(trace) + CleanupResult(active, IdsOf(listing), results)
      ensures
        var added := trace[|old(trace)|..];
        && Ids(added, Cleanup) == (if active.None? then [] else Dangling(active.value, set p <- listing :: p.id))
        && Ids(added, Failure) ==
             (if active.None? then [] else Dangling(BrokenAmong(active.value, results), set p <- listing :: p.id))
        && added[0] == ListedActive && (forall a <- added[1..] :: a.CleanedUp? || a.LoggedFailure?)
    {
      CleanupCallsTheDangling(active, IdsOf(listing), results);
      trace := trace + [ListedActive];
      if active.Some? {
        if |active.value| > 0 {
          CleanUpMissing(listing, active.value, results);
        }
        AppendIsAssociative(old(trace), [ListedActive], CleanupActions(active.value, IdsOf(listing), results));
      }
      assert trace[|old(trace)|..] == CleanupResult(active, IdsOf(listing), results);
    }

    /** One branch of the select other than the context-done one. Its timer is armed again when the
        work is done: `timers` are those the turn finds, `left` those it leaves. */
    method TakeTurn(t: Turn<Pod>, ghost v: Turn<PodValue>, ghost timers: Timers) returns (ghost left: Timers)
      requires t.wakeup.branch != ContextDone
      requires v.WellFormed() && LooksLike(t, v)
      modifies this`lastEventCheck, this`trace, this`published, this`passes
      ensures passes == old(passes) + [t.wakeup]
      ensures left == After(timers, t.wakeup)
      ensures t.wakeup.branch == StatusTimer ==>
        var r := Pass(v.listing, old(lastEventCheck), v.answers);
        lastEventCheck == r.watermark && trace == old(trace) + r.actions
      ensures t.wakeup.branch == CleanupTimer ==>
        && lastEventCheck == old(lastEventCheck)
        && trace == old(trace) + CleanupResult(v.active, ValueIds(v.listing), v.results)
    {
      passes := passes + [t.wakeup];
      if t.wakeup.branch == StatusTimer {
        assert v.listing == Values(t.listing);
        ghost var _, _ := UpdatePodsLoop(t.listing, t.answers);
        left := timers.(now := t.wakeup.rearmed, statusFires := t.wakeup.fires);
      } else {
        CleanupDanglingPods(t.listing, t.active, t.results);
        left := timers.(now := t.wakeup.rearmed, cleanupFires := t.wakeup.fires);
        assert ValueIds(v.listing) == IdsOf(t.listing);
      }
    }

    /** The first `n` turns have been taken since the tracker stood at `start`, `from` and `was`, and
        the timers, `armed` then, are now `timers`. */
    ghost predicate Took(values: seq<Turn<PodValue>>, n: nat, start: Time, from: seq<Action>, was: seq<Wakeup>,
                         armed: Timers, timers: Timers)
      requires forall k | 0 <= k < |values| :: values[k].WellFormed()
      requires n <= |values|
      reads this
    {
      match LoopTo(values, start, n)
      case PassResult(actions, watermark) =>
        && lastEventCheck == watermark
        && trace == from + actions
        && passes == was + Wakeups(values)[..n]
        && timers == TimersTo(armed, Wakeups(values), n)
    }

    method TakeNth(t: Turn<Pod>, ghost values: seq<Turn<PodValue>>, ghost n: nat,
                   ghost start: Time, ghost from: seq<Action>, ghost was: seq<Wakeup>,
                   ghost armed: Timers, ghost timers: Timers)
      returns (ghost left: Timers)
      requires t.wakeup.branch != ContextDone
      requires forall k | 0 <= k < |values| :: values[k].WellFormed()
      requires n < |values| && LooksLike(t, values[n])
      requires Took(values, n, start, from, was, armed, timers)
      modifies this`lastEventCheck, this`trace, this`published, this`passes
      ensures Took(values, n + 1, start, from, was, armed, left)
    {
      ghost var before := LoopTo(values, start, n);
      AppendIsAssociative(from, before.actions, TurnResult(values[n], before.watermark).actions);
      left := TakeTurn(t, values[n], timers);
    }

    /** The select loop over any finite run of turns, stopping at the first cancelled one. The
        turns may list any pods; `values` says what those pods look like. The timers are `armed`
        at the start, and `timers` are what the loop leaves of them. */
    method StartTracking(turns: seq<Turn<Pod>>, ghost values: seq<Turn<PodValue>>, ghost armed: Timers)
      returns (ghost timers: Timers)
      requires |values| == |turns|
      requires forall k | 0 <= k < |turns| :: values[k].WellFormed() && LooksLike(turns[k], values[k])
      modifies this`lastEventCheck, this`trace, this`published, this`passes
      ensures Took(values, LiveTurns(Wakeups(values)), old(lastEventCheck), old(trace), old(passes), armed, timers)
      ensures passes == old(passes) + Passes(Wakeups(values))
      ensures AccountIn(trace[|old(trace)|..]) == AccountTo(values, LiveTurns(Wakeups(values)))
      ensures Hears(PassResult(trace[|old(trace)|..], lastEventCheck),
                    CallsTo(values, LiveTurns(Wakeups(values))), old(lastEventCheck))
    {
      ghost var ws := Wakeups(values);
      timers := armed;
      var i := 0;
      while i < |turns| && turns[i].wakeup.branch != ContextDone
        invariant 0 <= i <= LiveTurns(ws)
        invariant Took(values, i, old(lastEventCheck), old(trace), old(passes), armed, timers)
      {
        assert old(LooksLike(turns[i], values[i]));
        timers := TakeNth(turns[i], values, i, old(lastEventCheck), old(trace), old(passes), armed, timers);
        i := i + 1;
      }
      assert i == LiveTurns(ws) by {
        assert i < |turns| ==> ws[i].branch == ContextDone;
      }
      PassesAreTheLiveTurns(ws);
      LoopAccount(values, old(lastEventCheck), i);
      LoopIsItsCalls(values, old(lastEventCheck), i);
      assert trace[|old(trace)|..] == LoopTo(values, old(lastEventCheck), i).actions;
    }
  }
}
