/** The event watermark: what a call records, over one batch and over any sequence of calls. */
module EventLaws {
  import opened Kube
  import opened Sequences
  import opened TrackerSpec

  /** The watermark after a call is the latest of the old one and every timestamp delivered. */
  lemma {:induction false} PeakIsLatest(batch: seq<Event>, floor: Time)
    ensures floor <= Peak(batch, floor)
    ensures forall e <- batch :: e.timestamp.Some? ==> e.timestamp.value <= Peak(batch, floor)
    ensures Peak(batch, floor) == floor
      || exists e <- batch :: e.timestamp == Some(Peak(batch, floor))
  {
    if batch != [] {
      var n := |batch| - 1;
      PeakIsLatest(batch[..n], floor);
      assert batch == batch[..n] + [batch[n]];
      assert batch[n] in batch;
    }
  }

  /** A call takes the events of its batch one by one, in order: an event without a timestamp or later
      than the watermark the call started with is recorded once, as a warning unless its type is
      "Normal"; the others are dropped. */
  lemma AdmittedOneByOne(batch: seq<Event>, e: Event, watermark: Time)
    ensures Admitted(batch + [e], watermark) == Admitted(batch, watermark)
      + if e.timestamp == None || e.timestamp.value > watermark
        then [Recorded(e.(eventType := if e.eventType == "Normal" then "Normal" else "Warning"))]
        else []
  {
    assert (batch + [e])[..|batch|] == batch;
  }

  /** Within a call an event is recorded exactly when it has no timestamp or is later than the
      watermark the call started with; the watermark moves only when the call ends. */
  lemma {:induction false} RecordedExactlyWhenNewer(batch: seq<Event>, watermark: Time, r: Event)
    ensures Recorded(r) in Admitted(batch, watermark) <==>
      exists e <- batch :: Newer(e, watermark) && Normalized(e) == r
  {
    if batch != [] {
      var n := |batch| - 1;
      RecordedExactlyWhenNewer(batch[..n], watermark, r);
      assert batch == batch[..n] + [batch[n]];
      assert batch[n] in batch;
    }
  }

  lemma {:induction false} AdmittedConcat(a: seq<Event>, b: seq<Event>, watermark: Time)
    ensures Admitted(a + b, watermark) == Admitted(a, watermark) + Admitted(b, watermark)
  {
    if b == [] {
      assert a + b == a;
    } else {
      var n := |b| - 1;
      assert (a + b)[..|a + b| - 1] == a + b[..n];
      AdmittedConcat(a, b[..n], watermark);
    }
  }

  lemma AdmittedWithout(b: seq<Event>, k: nat, watermark: Time)
    requires k < |b|
    ensures multiset(Admitted(b, watermark)) ==
      multiset(Admitted(Without(b, k), watermark)) + multiset(Admitted([b[k]], watermark))
  {
    var front, back := b[..k], b[k + 1..];
    assert b == front + ([b[k]] + back);
    AdmittedConcat(front, [b[k]] + back, watermark);
    AdmittedConcat([b[k]], back, watermark);
    AdmittedConcat(front, back, watermark);
  }

  lemma IndexInOther(a: seq<Event>, b: seq<Event>, i: nat) returns (k: nat)
    requires multiset(a) == multiset(b) && i < |a|
    ensures k < |b| && b[k] == a[i]
  {
    assert a[i] in multiset(a) && a[i] in b;
    k :| 0 <= k < |b| && b[k] == a[i];
  }

  /** Delivering a batch in another order records the same events equally often. */
  lemma {:induction false} BatchOrderDoesNotMatter(a: seq<Event>, b: seq<Event>, watermark: Time)
    requires multiset(a) == multiset(b)
    ensures multiset(Admitted(a, watermark)) == multiset(Admitted(b, watermark))
    decreases |a|
  {
    if a == [] {
      assert |b| == |multiset(b)| == 0;
    } else {
      var k := IndexInOther(a, b, 0);
      RemovesOne(a, 0);
      RemovesOne(b, k);
      BatchOrderDoesNotMatter(Without(a, 0), Without(b, k), watermark);
      AdmittedWithout(a, 0, watermark);
      AdmittedWithout(b, k, watermark);
    }
  }

  // ---------- Sequences of calls, for any pods ----------

  function WatermarkBefore(calls: seq<seq<Event>>, start: Time, k: nat): Time
    requires k <= |calls|
  {
    if k == 0 then start else Peak(calls[k - 1], WatermarkBefore(calls, start, k - 1))
  }

  ghost predicate LaterThanEarlierCalls(calls: seq<seq<Event>>, start: Time, k: nat, e: Event)
    requires k <= |calls|
  {
    e.timestamp.None? ||
    (&& e.timestamp.value > start
     && forall j, d | 0 <= j < k && d in calls[j] && d.timestamp.Some? :: d.timestamp.value < e.timestamp.value)
  }

  /** An event delivered in call `k` is recorded exactly when it is later than the start and than
      everything delivered, for any pod, in earlier calls. */
  lemma {:induction false} AdmissionOverCalls(calls: seq<seq<Event>>, start: Time, k: nat, e: Event)
    requires k <= |calls|
    ensures Newer(e, WatermarkBefore(calls, start, k)) <==> LaterThanEarlierCalls(calls, start, k, e)
  {
    if k > 0 {
      AdmissionOverCalls(calls, start, k - 1, e);
      var w := WatermarkBefore(calls, start, k - 1);
      PeakIsLatest(calls[k - 1], w);
      if Newer(e, w) && !Newer(e, Peak(calls[k - 1], w)) {
        var d :| d in calls[k - 1] && d.timestamp == Some(Peak(calls[k - 1], w));
        assert d.timestamp.value >= e.timestamp.value;
      }
    }
  }

  /** Some call up to the `k`-th delivered the event and admitted it, that is, recorded it. */
  ghost predicate RecordedBy(calls: seq<seq<Event>>, start: Time, k: nat, e: Event)
    requires k < |calls|
  {
    exists j | 0 <= j <= k :: e in calls[j] && Newer(e, WatermarkBefore(calls, start, j))
  }

  ghost predicate FirstDelivered(calls: seq<seq<Event>>, k: nat, e: Event)
    requires k < |calls|
  {
    e in calls[k] && forall j | 0 <= j < k :: e !in calls[j]
  }

  lemma {:induction false} FirstDelivery(calls: seq<seq<Event>>, k: nat, e: Event) returns (f: nat)
    requires k < |calls| && e in calls[k]
    ensures f <= k && FirstDelivered(calls, f, e)
  {
    if j :| 0 <= j < k && e in calls[j] {
      f := FirstDelivery(calls, j, e);
    } else {
      f := k;
    }
  }

  /** An event is recorded, in the call that delivers it or in an earlier one, exactly when it was
      late enough at its first delivery: a repeated delivery never makes up for a loss. */
  lemma RecordedExactlyWhenFirstIsLate(calls: seq<seq<Event>>, start: Time, f: nat, k: nat, e: Event)
    requires f <= k < |calls| && e in calls[k] && FirstDelivered(calls, f, e)
    ensures RecordedBy(calls, start, k, e) <==> LaterThanEarlierCalls(calls, start, f, e)
  {
    AdmissionOverCalls(calls, start, f, e);
    if RecordedBy(calls, start, k, e) {
      var j :| 0 <= j <= k && e in calls[j] && Newer(e, WatermarkBefore(calls, start, j));
      AdmissionOverCalls(calls, start, j, e);
      assert f <= j;
    }
  }

  ghost predicate Lossless(calls: seq<seq<Event>>, start: Time) {
    forall k, e | 0 <= k < |calls| && e in calls[k] :: RecordedBy(calls, start, k, e)
  }

  ghost predicate FirstsAscend(calls: seq<seq<Event>>, start: Time) {
    forall k, e | 0 <= k < |calls| && FirstDelivered(calls, k, e) :: LaterThanEarlierCalls(calls, start, k, e)
  }

  /** No event is lost for good exactly when every event is, the first time it is delivered, later
      than the start and than everything delivered before. */
  lemma LosslessExactlyWhenFirstsAscend(calls: seq<seq<Event>>, start: Time)
    ensures Lossless(calls, start) <==> FirstsAscend(calls, start)
  {
    forall k, e | 0 <= k < |calls| && FirstDelivered(calls, k, e)
      ensures RecordedBy(calls, start, k, e) <==> LaterThanEarlierCalls(calls, start, k, e)
    {
      RecordedExactlyWhenFirstIsLate(calls, start, k, k, e);
    }
    if FirstsAscend(calls, start) {
      forall k, e | 0 <= k < |calls| && e in calls[k]
        ensures RecordedBy(calls, start, k, e)
      {
        var f := FirstDelivery(calls, k, e);
        RecordedExactlyWhenFirstIsLate(calls, start, f, k, e);
      }
    }
  }

  /** Recorded by admission is recorded in the log: the admitted events of a call are its records. */
  lemma RecordedByIsLogged(calls: seq<seq<Event>>, start: Time, k: nat, e: Event)
    requires k < |calls| && RecordedBy(calls, start, k, e)
    ensures exists j | 0 <= j <= k :: Recorded(Normalized(e)) in Admitted(calls[j], WatermarkBefore(calls, start, j))
  {
    var j :| 0 <= j <= k && e in calls[j] && Newer(e, WatermarkBefore(calls, start, j));
    RecordedExactlyWhenNewer(calls[j], WatermarkBefore(calls, start, j), Normalized(e));
  }

  /** The watermark is shared by all pods: an event of one pod is lost for good when another pod's
      later event came first, however often it is delivered again. */
  lemma SharedWatermarkLosesEvents(w: Time)
    ensures
      var late := Event(Some(w + 2), "first", EVENT_TYPE_NORMAL, "", "");
      var early := Event(Some(w + 1), "second", EVENT_TYPE_NORMAL, "", "");
      && Newer(early, w)
      && !RecordedBy([[late], [early], [early]], w, 2, early)
  {
    var late := Event(Some(w + 2), "first", EVENT_TYPE_NORMAL, "", "");
    var early := Event(Some(w + 1), "second", EVENT_TYPE_NORMAL, "", "");
    var calls := [[late], [early], [early]];
    assert late in calls[0] && FirstDelivered(calls, 1, early);
    assert !LaterThanEarlierCalls(calls, w, 1, early);
    RecordedExactlyWhenFirstIsLate(calls, w, 1, 2, early);
  }

  // ---------- Logs ----------

  predicate Timed(a: Action) {
    a.Recorded? && a.event.timestamp.Some?
  }

  predicate Within(log: seq<Action>, low: Time, high: Time) {
    forall a <- log :: Timed(a) ==> low < a.event.timestamp.value <= high
  }

  /** Of two timestamped records with the start of a call between them, the second is later. In
      particular no timestamped event is recorded by two calls. */
  ghost predicate RecordsAdvance(log: seq<Action>) {
    forall i, k, j | 0 <= i < k < j < |log| && Timed(log[i]) && log[k].FetchedEvents? && Timed(log[j]) ::
      log[i].event.timestamp.value < log[j].event.timestamp.value
  }

  lemma AdvanceConcat(a: seq<Action>, b: seq<Action>, low: Time, mid: Time, high: Time)
    requires low <= mid <= high
    requires Within(a, low, mid) && Within(b, mid, high)
    requires RecordsAdvance(a) && RecordsAdvance(b)
    ensures Within(a + b, low, high) && RecordsAdvance(a + b)
  {
    var log := a + b;
    forall i, k, j | 0 <= i < k < j < |log| && Timed(log[i]) && log[k].FetchedEvents? && Timed(log[j])
      ensures log[i].event.timestamp.value < log[j].event.timestamp.value
    {
      if i >= |a| {
        assert log[i] == b[i - |a|] && log[k] == b[k - |a|] && log[j] == b[j - |a|];
      } else if j >= |a| {
        assert log[i] in a && log[j] in b;
      }
    }
  }

  lemma {:induction false} AdmittedWithin(batch: seq<Event>, watermark: Time)
    ensures Within(Admitted(batch, watermark), watermark, Peak(batch, watermark))
    ensures forall a <- Admitted(batch, watermark) :: a.Recorded?
  {
    if batch != [] {
      AdmittedWithin(batch[..|batch| - 1], watermark);
    }
  }

  lemma VisitAdvances(p: PodValue, watermark: Time, a: Answer)
    ensures watermark <= Peak(a.events, watermark)
    ensures Within(Visited(p, watermark, a), watermark, Peak(a.events, watermark))
    ensures RecordsAdvance(Visited(p, watermark, a))
  {
    AdmittedWithin(a.events, watermark);
    PeakIsLatest(a.events, watermark);
    var v, recorded := Visited(p, watermark, a), Admitted(a.events, watermark);
    var tail: seq<Action> :=
      (if Skipped(p) then [] else [FetchedStatus(p.id)])
      + if StatusAfter(p, a).Some? then [Published(Refreshed(p, a))] else [];
    assert v == [FetchedEvents(p.id)] + (recorded + tail);
    assert forall x: Action | x in recorded + tail :: !x.FetchedEvents?;
    assert v[1..] == recorded + tail;
    assert forall k | 0 < k < |v| :: v[k] == v[1..][k - 1];
  }

  lemma {:induction false} PassAdvances(listing: seq<PodValue>, watermark: Time, answers: seq<Answer>, n: nat)
    requires |answers| == |listing| && n <= |listing|
    ensures
      var r := PassTo(listing, watermark, answers, n);
      && watermark <= r.watermark
      && Within(r.actions, watermark, r.watermark)
      && RecordsAdvance(r.actions)
  {
    if n > 0 {
      PassAdvances(listing, watermark, answers, n - 1);
      var before := PassTo(listing, watermark, answers, n - 1);
      VisitAdvances(listing[n - 1], before.watermark, answers[n - 1]);
      AdvanceConcat(before.actions, Visited(listing[n - 1], before.watermark, answers[n - 1]),
                    watermark, before.watermark, Peak(answers[n - 1].events, before.watermark));
    }
  }

  function Batches(answers: seq<Answer>): (calls: seq<seq<Event>>)
    ensures |calls| == |answers|
  {
    seq(|answers|, i requires 0 <= i < |answers| => answers[i].events)
  }

  /** What the first `k` of a sequence of calls record, each against the watermark it finds. */
  function RecordedOver(calls: seq<seq<Event>>, start: Time, k: nat): seq<Event>
    requires k <= |calls|
  {
    if k == 0 then []
    else
      RecordedOver(calls, start, k - 1) + Records(Admitted(calls[k - 1], WatermarkBefore(calls, start, k - 1)))
  }

  lemma {:induction false} CallsPrefix(a: seq<seq<Event>>, b: seq<seq<Event>>, start: Time, k: nat)
    requires k <= |a|
    ensures WatermarkBefore(a + b, start, k) == WatermarkBefore(a, start, k)
    ensures RecordedOver(a + b, start, k) == RecordedOver(a, start, k)
  {
    if k > 0 {
      CallsPrefix(a, b, start, k - 1);
      assert (a + b)[k - 1] == a[k - 1];
    }
  }

  lemma {:induction false} WatermarkConcat(a: seq<seq<Event>>, b: seq<seq<Event>>, start: Time, k: nat)
    requires k <= |b|
    ensures WatermarkBefore(a + b, start, |a| + k) == WatermarkBefore(b, WatermarkBefore(a, start, |a|), k)
  {
    if k > 0 {
      WatermarkConcat(a, b, start, k - 1);
      assert (a + b)[|a| + k - 1] == b[k - 1];
    } else {
      CallsPrefix(a, b, start, |a|);
    }
  }

  /** A sequence of calls can be cut anywhere: the second part goes on from the watermark the first
      leaves. */
  lemma {:induction false} CallsConcat(a: seq<seq<Event>>, b: seq<seq<Event>>, start: Time, k: nat)
    requires k <= |b|
    ensures WatermarkBefore(a + b, start, |a| + k) == WatermarkBefore(b, WatermarkBefore(a, start, |a|), k)
    ensures RecordedOver(a + b, start, |a| + k) ==
      RecordedOver(a, start, |a|) + RecordedOver(b, WatermarkBefore(a, start, |a|), k)
  {
    WatermarkConcat(a, b, start, k);
    if k > 0 {
      CallsConcat(a, b, start, k - 1);
      var mid := WatermarkBefore(a, start, |a|);
      var last := Records(Admitted(b[k - 1], WatermarkBefore(b, mid, k - 1)));
      AppendIsAssociative(RecordedOver(a, start, |a|), RecordedOver(b, mid, k - 1), last);
    } else {
      CallsPrefix(a, b, start, |a|);
    }
  }

  lemma VisitRecords(p: PodValue, watermark: Time, a: Answer)
    ensures Records(Visited(p, watermark, a)) == Records(Admitted(a.events, watermark))
  {
    var front, records := [FetchedEvents(p.id)], Admitted(a.events, watermark);
    var back := (if Skipped(p) then [] else [FetchedStatus(p.id)])
      + if StatusAfter(p, a).Some? then [Published(Refreshed(p, a))] else [];
    assert Visited(p, watermark, a) == front + (records + back);
    NoRecords(front);
    NoRecords(back);
    RecordsConcat(front, records + back);
    RecordsConcat(records, back);
  }

  /** A status pass is one call per listed pod, skipped or not: its watermark is the one its batches
      leave, and it records what they record. */
  lemma {:induction false} PassIsItsCalls(listing: seq<PodValue>, watermark: Time, answers: seq<Answer>, n: nat)
    requires |answers| == |listing| && n <= |listing|
    ensures
      var r := PassTo(listing, watermark, answers, n);
      && r.watermark == WatermarkBefore(Batches(answers), watermark, n)
      && Records(r.actions) == RecordedOver(Batches(answers), watermark, n)
  {
    if n > 0 {
      PassIsItsCalls(listing, watermark, answers, n - 1);
      var before := PassTo(listing, watermark, answers, n - 1);
      VisitRecords(listing[n - 1], before.watermark, answers[n - 1]);
      RecordsConcat(before.actions, Visited(listing[n - 1], before.watermark, answers[n - 1]));
    }
  }
}
