/** The persisted wire records of one node in one namespace, and the loops that
    rewrite them. */
module WireRecords {

  datatype Record = Record(
    node: string, linkId: int, topoNs: string,
    netNs: string, podName: string, podIp: string, podIface: string, hostIface: string,
    peerIfaceId: int, peerNodeIp: string)

  /** Link, namespace, node and pod netns identify a record. */
  predicate SameIdentity(e: Record, r: Record) {
    e.linkId == r.linkId && e.topoNs == r.topoNs && e.node == r.node && e.netNs == r.netNs
  }

  /** A record of the same link and pod, left by an earlier incarnation of the pod. */
  predicate Outdated(e: Record, r: Record) {
    e.linkId == r.linkId && e.podName == r.podName && e.netNs != r.netNs
  }

  predicate Unrelated(e: Record, r: Record) {
    !SameIdentity(e, r) && !Outdated(e, r)
  }

  /** The list built so far and whether the new record is in it already. */
  function Merge(list: seq<Record>, r: Record): (seq<Record>, bool) {
    if list == [] then ([], false)
    else
      var (out, replaced) := Merge(list[..|list| - 1], r);
      var e := list[|list| - 1];
      if Outdated(e, r) then (out, replaced)
      else if SameIdentity(e, r) then (if replaced then out else out + [r], true)
      else (out + [e], replaced)
  }

  function Upsert(list: seq<Record>, r: Record): seq<Record> {
    var (out, replaced) := Merge(list, r);
    if replaced then out else out + [r]
  }

  function Filter(list: seq<Record>, p: Record -> bool): (out: seq<Record>)
    ensures forall e :: e in out <==> e in list && p(e)
  {
    if list == [] then []
    else
      var e := list[|list| - 1];
      assert list == list[..|list| - 1] + [e];
      if p(e) then Filter(list[..|list| - 1], p) + [e] else Filter(list[..|list| - 1], p)
  }

  function OtherThan(r: Record): Record -> bool {
    e => Unrelated(e, r)
  }

  function NotLink(linkId: int): Record -> bool {
    (e: Record) => e.linkId != linkId
  }

  function NotPod(podName: string): Record -> bool {
    (e: Record) => e.podName != podName
  }

  function WithoutLink(list: seq<Record>, linkId: int): seq<Record> {
    Filter(list, NotLink(linkId))
  }

  function WithoutPod(list: seq<Record>, podName: string): seq<Record> {
    Filter(list, NotPod(podName))
  }

  // ---------------------------------------------------------------- loops

  method UpsertLoop(list: seq<Record>, r: Record) returns (out: seq<Record>)
    ensures out == Upsert(list, r)
  {
    out := [];
    var replaced := false;
    for i := 0 to |list|
      invariant (out, replaced) == Merge(list[..i], r)
    {
      assert list[..i + 1][..i] == list[..i];
      var e := list[i];
      if e.linkId == r.linkId && e.podName == r.podName && e.netNs != r.netNs {
        continue;
      }
      if e.linkId == r.linkId && e.topoNs == r.topoNs && e.node == r.node && e.netNs == r.netNs {
        if !replaced {
          out := out + [r];
          replaced := true;
        }
        continue;
      }
      out := out + [e];
    }
    assert list[..|list|] == list;
    if !replaced {
      out := out + [r];
    }
  }

  method WithoutLinkLoop(list: seq<Record>, linkId: int) returns (out: seq<Record>)
    ensures out == WithoutLink(list, linkId)
  {
    out := [];
    for i := 0 to |list|
      invariant out == WithoutLink(list[..i], linkId)
    {
      assert list[..i + 1][..i] == list[..i];
      if list[i].linkId == linkId {
        continue;
      }
      out := out + [list[i]];
    }
    assert list[..|list|] == list;
  }

  method WithoutPodLoop(list: seq<Record>, podName: string) returns (out: seq<Record>, removed: nat)
    ensures out == WithoutPod(list, podName)
    ensures removed == |list| - |out|
    ensures removed == 0 ==> out == list
  {
    out := [];
    removed := 0;
    for i := 0 to |list|
      invariant out == WithoutPod(list[..i], podName)
      invariant removed == i - |out|
      invariant removed == 0 ==> out == list[..i]
    {
      assert list[..i + 1][..i] == list[..i];
      if list[i].podName == podName {
        removed := removed + 1;
        continue;
      }
      out := out + [list[i]];
    }
    assert list[..|list|] == list;
  }

  // --------------------------------------------------------------- upsert

  lemma {:induction false} MergeContents(list: seq<Record>, r: Record)
    ensures forall e :: e in Merge(list, r).0 <==> (e in list && Unrelated(e, r)) || (e == r && Merge(list, r).1)
    ensures Merge(list, r).1 <==> exists e :: e in list && SameIdentity(e, r)
  {
    if list != [] {
      var front, e := list[..|list| - 1], list[|list| - 1];
      assert list == front + [e];
      MergeContents(front, r);
    }
  }

  /** What the list holds after an upsert: the new record, every unrelated one, and
      nothing else. In particular no outdated record survives. */
  lemma UpsertContents(list: seq<Record>, r: Record)
    ensures forall e :: e in Upsert(list, r) <==> e == r || (e in list && Unrelated(e, r))
    ensures forall e :: e in Upsert(list, r) ==> !Outdated(e, r)
  {
    MergeContents(list, r);
  }

  /** Of the records that were there, exactly those of the same link go that are of the same
      namespace, node and netns, or of the same pod in another netns. */
  lemma UpsertDrops(list: seq<Record>, r: Record, e: Record)
    requires e in list && e != r
    ensures e !in Upsert(list, r) <==>
      && e.linkId == r.linkId
      && (if e.netNs == r.netNs then e.topoNs == r.topoNs && e.node == r.node else e.podName == r.podName)
  {
    UpsertContents(list, r);
  }

  lemma FilterSnoc(a: seq<Record>, e: Record, p: Record -> bool)
    ensures Filter(a + [e], p) == Filter(a, p) + if p(e) then [e] else []
  {
    assert (a + [e])[..|a|] == a;
  }

  lemma {:induction false} MergeKeepsOrder(list: seq<Record>, r: Record)
    ensures Filter(Merge(list, r).0, OtherThan(r)) == Filter(list, OtherThan(r))
  {
    if list != [] {
      var front, e := list[..|list| - 1], list[|list| - 1];
      assert list == front + [e];
      MergeKeepsOrder(front, r);
      FilterSnoc(front, e, OtherThan(r));
      FilterSnoc(Merge(front, r).0, e, OtherThan(r));
      FilterSnoc(Merge(front, r).0, r, OtherThan(r));
    }
  }

  /** The unrelated records keep their order. */
  lemma UpsertKeepsOrder(list: seq<Record>, r: Record)
    ensures Filter(Upsert(list, r), OtherThan(r)) == Filter(list, OtherThan(r))
  {
    MergeKeepsOrder(list, r);
    FilterSnoc(Merge(list, r).0, r, OtherThan(r));
  }

  lemma {:induction false} MergedAtMostOnce(list: seq<Record>, r: Record, i: nat, j: nat)
    requires i < |Merge(list, r).0| && j < |Merge(list, r).0|
    requires SameIdentity(Merge(list, r).0[i], r) && SameIdentity(Merge(list, r).0[j], r)
    ensures i == j && Merge(list, r).0[i] == r && Merge(list, r).1
  {
    if list != [] {
      var front, e := list[..|list| - 1], list[|list| - 1];
      var (out, replaced) := Merge(front, r);
      if i < |out| { MergedAtMostOnce(front, r, i, i); }
      if j < |out| { MergedAtMostOnce(front, r, j, j); }
      if i < |out| && j < |out| { MergedAtMostOnce(front, r, i, j); }
    }
  }

  /** Exactly one record has the new identity, and it is the new record. */
  lemma UpsertExactlyOne(list: seq<Record>, r: Record) returns (i: nat)
    ensures i < |Upsert(list, r)| && Upsert(list, r)[i] == r
    ensures forall j :: 0 <= j < |Upsert(list, r)| && SameIdentity(Upsert(list, r)[j], r) ==> j == i
  {
    var out := Upsert(list, r);
    UpsertContents(list, r);
    assert r in out;
    i :| 0 <= i < |out| && out[i] == r;
    forall j | 0 <= j < |out| && SameIdentity(out[j], r) ensures j == i {
      var m := Merge(list, r).0;
      if i < |m| { MergedAtMostOnce(list, r, i, i); }
      if j < |m| { MergedAtMostOnce(list, r, j, j); }
      if i < |m| && j < |m| { MergedAtMostOnce(list, r, i, j); }
    }
  }

  lemma {:induction false} MergeIntoMerged(list: seq<Record>, r: Record)
    requires forall e :: e in list ==> !Outdated(e, r) && (SameIdentity(e, r) ==> e == r)
    requires forall i, j :: 0 <= i < j < |list| ==> !(SameIdentity(list[i], r) && SameIdentity(list[j], r))
    ensures Merge(list, r).0 == list
  {
    if list != [] {
      var front, e := list[..|list| - 1], list[|list| - 1];
      assert list == front + [e];
      forall i, j | 0 <= i < j < |front| ensures !(SameIdentity(front[i], r) && SameIdentity(front[j], r)) {
        assert front[i] == list[i] && front[j] == list[j];
      }
      MergeIntoMerged(front, r);
      MergeContents(front, r);
      if Merge(front, r).1 {
        var x :| x in front && SameIdentity(x, r);
        var i :| 0 <= i < |front| && front[i] == x;
        assert list[i] == x;
      }
    }
  }

  /** Storing the same status again changes nothing. */
  lemma UpsertIdempotent(list: seq<Record>, r: Record)
    ensures Upsert(Upsert(list, r), r) == Upsert(list, r)
  {
    var out := Upsert(list, r);
    var i := UpsertExactlyOne(list, r);
    UpsertContents(list, r);
    forall e | e in out ensures SameIdentity(e, r) ==> e == r {
      var j :| 0 <= j < |out| && out[j] == e;
    }
    MergeIntoMerged(out, r);
    MergeContents(out, r);
    assert r in out;
  }

  // ----------------------------------------------------------- uniqueness

  predicate UniquePerPod(list: seq<Record>) {
    forall i, j :: 0 <= i < j < |list| ==> list[i].linkId != list[j].linkId || list[i].podName != list[j].podName
  }

  predicate UniquePerNetNs(list: seq<Record>) {
    forall i, j :: 0 <= i < j < |list| ==> list[i].linkId != list[j].linkId || list[i].netNs != list[j].netNs
  }

  /** All records of an object are for its node and namespace. */
  predicate Homogeneous(list: seq<Record>, node: string, topoNs: string) {
    forall e :: e in list ==> e.node == node && e.topoNs == topoNs
  }

  lemma {:induction false} MergeKeepsPositions(list: seq<Record>, r: Record) returns (from: seq<nat>)
    ensures |from| == |Merge(list, r).0|
    ensures forall i :: 0 <= i < |from| ==> from[i] < |list|
    ensures forall i :: 0 <= i < |from| ==>
      Merge(list, r).0[i] == list[from[i]] || (Merge(list, r).0[i] == r && SameIdentity(list[from[i]], r))
    ensures forall i, j :: 0 <= i < j < |from| ==> from[i] < from[j]
  {
    if list == [] {
      from := [];
    } else {
      var front := list[..|list| - 1];
      from := MergeKeepsPositions(front, r);
      if |Merge(list, r).0| > |Merge(front, r).0| {
        from := from + [|front|];
      }
    }
  }

  /** Two records of the merged list that clash come from two that did, or involve
      the new one. */
  lemma UpsertKeepsUnique(list: seq<Record>, r: Record)
    requires Homogeneous(list, r.node, r.topoNs) && UniquePerPod(list) && UniquePerNetNs(list)
    ensures Homogeneous(Upsert(list, r), r.node, r.topoNs) && UniquePerPod(Upsert(list, r)) && UniquePerNetNs(Upsert(list, r))
  {
    var out, m := Upsert(list, r), Merge(list, r).0;
    UpsertContents(list, r);
    var from := MergeKeepsPositions(list, r);
    var at := UpsertExactlyOne(list, r);
    forall i, j | 0 <= i < j < |out| && out[i].linkId == out[j].linkId
      ensures out[i].podName != out[j].podName && out[i].netNs != out[j].netNs
    {
      assert out[i] in out && out[j] in out;
      if i != at && j != at {
        assert !SameIdentity(out[i], r) && !SameIdentity(out[j], r);
        assert out[i] == list[from[i]] && out[j] == list[from[j]];
      }
    }
  }

  lemma {:induction false} FilterKeepsUnique(list: seq<Record>, p: Record -> bool)
    requires UniquePerPod(list) && UniquePerNetNs(list)
    ensures UniquePerPod(Filter(list, p)) && UniquePerNetNs(Filter(list, p))
  {
    if list != [] {
      var front, e := list[..|list| - 1], list[|list| - 1];
      assert forall i :: 0 <= i < |front| ==> front[i] == list[i];
      FilterKeepsUnique(front, p);
      var out := Filter(front, p);
      forall i | 0 <= i < |out| ensures out[i].linkId != e.linkId || (out[i].podName != e.podName && out[i].netNs != e.netNs) {
        assert out[i] in out;
        var k :| 0 <= k < |front| && front[k] == out[i];
        assert list[k] == out[i];
      }
    }
  }

  /** Every store and every delete keeps the records unique per link and pod, and
      per link and netns. */
  lemma DeletesKeepUnique(list: seq<Record>, linkId: int, podName: string)
    requires UniquePerPod(list) && UniquePerNetNs(list)
    ensures UniquePerPod(WithoutLink(list, linkId)) && UniquePerNetNs(WithoutLink(list, linkId))
    ensures UniquePerPod(WithoutPod(list, podName)) && UniquePerNetNs(WithoutPod(list, podName))
  {
    FilterKeepsUnique(list, NotLink(linkId));
    FilterKeepsUnique(list, NotPod(podName));
  }
}
