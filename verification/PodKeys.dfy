/** The keys of the provider's pod map: namespace, name and a random suffix. */
module PodKeys {
  import opened Kube

  const LETTERS := "abcdefghijklmnopqrstuvwxyz1234567890"
  const SUFFIX_LENGTH := 6

  predicate IsSuffix(s: string) {
    |s| == SUFFIX_LENGTH && forall c <- s :: c in LETTERS
  }

  function Joined(id: PodId): string {
    id.namespace + "-" + id.name
  }

  function Key(id: PodId, suffix: string): string {
    Joined(id) + "-" + suffix
  }

  predicate Nameable(id: PodId) {
    id.namespace != "" && id.name != ""
  }

  /** Whatever the suffixes, two keys agree exactly when the joined names and the suffixes do. */
  lemma KeysAgree(a: PodId, s: string, b: PodId, t: string)
    requires |s| == |t|
    ensures Key(a, s) == Key(b, t) <==> Joined(a) == Joined(b) && s == t
  {
    if Key(a, s) == Key(b, t) {
      var n := |Joined(a)|;
      assert |Joined(b)| == n;
      assert Joined(a) == Key(a, s)[..n] && Joined(b) == Key(b, t)[..n];
      assert s == Key(a, s)[n + 1..] && t == Key(b, t)[n + 1..];
    }
  }

  lemma FirstDash(id: PodId)
    requires '-' !in id.namespace
    ensures Joined(id)[|id.namespace|] == '-'
    ensures forall k | 0 <= k < |id.namespace| :: Joined(id)[k] != '-'
  {
    assert forall k | 0 <= k < |id.namespace| :: Joined(id)[k] == id.namespace[k];
  }

  /** Without a dash in the namespaces the joined name can be split again. */
  lemma DashlessNamesAreDistinct(a: PodId, b: PodId)
    requires '-' !in a.namespace && '-' !in b.namespace
    requires Joined(a) == Joined(b)
    ensures a == b
  {
    FirstDash(a);
    FirstDash(b);
    var j, n := Joined(a), |a.namespace|;
    assert |b.namespace| == n;
    assert a.namespace == j[..n] && b.namespace == j[..n];
    assert a.name == j[n + 1..] && b.name == j[n + 1..];
  }

  /** Namespaces may contain a dash, and then two pods can share every key. */
  lemma DashedNamesCollide(s: string)
    ensures Key(PodId("a-b", "c"), s) == Key(PodId("a", "b-c"), s)
  {
    assert Joined(PodId("a-b", "c")) == "a-b-c" == Joined(PodId("a", "b-c"));
  }

  // ---------- The map over a whole history ----------

  /** One pod handed to the provider, with the suffix that was drawn for it. */
  datatype Draw = Draw(id: PodId, suffix: string)

  /** A pod without a namespace or a name is refused. */
  function Remembered(known: map<string, PodId>, d: Draw): map<string, PodId> {
    if Nameable(d.id) then known[Key(d.id, d.suffix) := d.id] else known
  }

  function KnownAfter(history: seq<Draw>): map<string, PodId> {
    if history == [] then map[]
    else Remembered(KnownAfter(history[..|history| - 1]), history[|history| - 1])
  }

  function Accepted(history: seq<Draw>): set<PodId> {
    set d <- history | Nameable(d.id) :: d.id
  }

  ghost predicate Unambiguous(ids: set<PodId>) {
    forall a, b | a in ids && b in ids && Joined(a) == Joined(b) :: a == b
  }

  lemma DashlessIsUnambiguous(ids: set<PodId>)
    requires forall id <- ids :: '-' !in id.namespace
    ensures Unambiguous(ids)
  {
    forall a, b | a in ids && b in ids && Joined(a) == Joined(b)
      ensures a == b
    {
      DashlessNamesAreDistinct(a, b);
    }
  }

  /** Every entry of the map came from an accepted pod, under one of that pod's keys. */
  ghost predicate Truthful(known: map<string, PodId>, ids: set<PodId>) {
    forall k <- known :: known[k] in ids && exists s: string :: IsSuffix(s) && k == Key(known[k], s)
  }

  lemma RememberKeeps(known: map<string, PodId>, ids: set<PodId>, d: Draw)
    requires Truthful(known, ids) && IsSuffix(d.suffix)
    ensures
      var more := if Nameable(d.id) then ids + {d.id} else ids;
      && Truthful(Remembered(known, d), more)
      && (known.Values == ids && Unambiguous(more) ==> Remembered(known, d).Values == more)
  {
    if Nameable(d.id) {
      var key, more := Key(d.id, d.suffix), ids + {d.id};
      var after := Remembered(known, d);
      assert Truthful(after, more);
      if known.Values == ids && Unambiguous(more) {
        assert after[key] == d.id;
        forall id | id in ids
          ensures id in after.Values
        {
          var k :| k in known && known[k] == id;
          if k == key {
            var s: string :| IsSuffix(s) && k == Key(id, s);
            KeysAgree(id, s, d.id, d.suffix);
          } else {
            assert after[k] == id;
          }
        }
      }
    }
  }

  ghost predicate Drawn(history: seq<Draw>) {
    forall d <- history :: IsSuffix(d.suffix)
  }

  lemma {:induction false} HistoryIsKept(history: seq<Draw>)
    requires Drawn(history)
    ensures Truthful(KnownAfter(history), Accepted(history))
    ensures Unambiguous(Accepted(history)) ==> KnownAfter(history).Values == Accepted(history)
  {
    if history != [] {
      var n := |history| - 1;
      var d := history[n];
      HistoryIsKept(history[..n]);
      assert history == history[..n] + [d];
      assert Accepted(history) == if Nameable(d.id) then Accepted(history[..n]) + {d.id} else Accepted(history[..n]);
      RememberKeeps(KnownAfter(history[..n]), Accepted(history[..n]), d);
    }
  }

  /** The history in which every draw gave the same suffix. */
  function Unlucky(ids: seq<PodId>, suffix: string): (h: seq<Draw>)
    ensures |h| == |ids|
  {
    seq(|ids|, i requires 0 <= i < |ids| => Draw(ids[i], suffix))
  }

  function IdsOf(history: seq<Draw>): seq<PodId> {
    seq(|history|, i requires 0 <= i < |history| => history[i].id)
  }

  lemma SameSuffixNeverTwice(ids: seq<PodId>, suffix: string, a: PodId, b: PodId)
    requires Joined(a) == Joined(b) && a != b
    ensures !(a in KnownAfter(Unlucky(ids, suffix)).Values && b in KnownAfter(Unlucky(ids, suffix)).Values)
  {
    OneSuffixOneKey(ids, suffix);
    assert Key(a, suffix) == Key(b, suffix);
  }

  lemma {:induction false} OneSuffixOneKey(ids: seq<PodId>, suffix: string)
    ensures forall k | k in KnownAfter(Unlucky(ids, suffix)) ::
      k == Key(KnownAfter(Unlucky(ids, suffix))[k], suffix)
  {
    if ids != [] {
      var n := |ids| - 1;
      OneSuffixOneKey(ids[..n], suffix);
      assert Unlucky(ids, suffix)[..n] == Unlucky(ids[..n], suffix);
      assert KnownAfter(Unlucky(ids, suffix)) ==
        Remembered(KnownAfter(Unlucky(ids[..n], suffix)), Draw(ids[n], suffix));
    }
  }

  /** The identifiers in the map are exactly the accepted ones, whatever suffixes are drawn, if and
      only if no two accepted identifiers join to the same string. */
  lemma RecordIsExactIffUnambiguous(ids: seq<PodId>)
    ensures (forall h: seq<Draw> | Drawn(h) && IdsOf(h) == ids :: KnownAfter(h).Values == Accepted(h))
      <==> Unambiguous(set id <- ids | Nameable(id))
  {
    var accepted := set id <- ids | Nameable(id);
    forall h: seq<Draw> | Drawn(h) && IdsOf(h) == ids
      ensures Unambiguous(accepted) ==> KnownAfter(h).Values == Accepted(h)
    {
      AcceptedIsAboutIds(h);
      HistoryIsKept(h);
    }
    if !Unambiguous(accepted) {
      var a, b :| a in accepted && b in accepted && Joined(a) == Joined(b) && a != b;
      var suffix := "aaaaaa";
      var h := Unlucky(ids, suffix);
      assert Drawn(h) && IdsOf(h) == ids;
      AcceptedIsAboutIds(h);
      SameSuffixNeverTwice(ids, suffix, a, b);
      assert KnownAfter(h).Values != Accepted(h);
    }
  }

  lemma AcceptedIsAboutIds(h: seq<Draw>)
    ensures Accepted(h) == set id <- IdsOf(h) | Nameable(id)
  {
    forall d | d in h ensures d.id in IdsOf(h) {
      var i :| 0 <= i < |h| && h[i] == d;
      assert IdsOf(h)[i] == d.id;
    }
    forall id | id in IdsOf(h) ensures exists d <- h :: d.id == id {
      var i :| 0 <= i < |h| && IdsOf(h)[i] == id;
      assert h[i] in h && h[i].id == id;
    }
  }
}
