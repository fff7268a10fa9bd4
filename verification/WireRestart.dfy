/** What a restart of the daemon does to the wires of any run: which of them come back;
    and with one end of a link per node nothing is lost. */
module WireRestart {
  import opened WireRecords
  import opened WireNode
  import opened WireInvariants
  import opened WireTheorems
  import opened WireRecon

  // ------------------------------------------------- uniqueness, over runs

  ghost predicate UniqueInv(n: Node) {
    forall ns :: ns in n.records ==> Homogeneous(n.records[ns], n.name, ns) && UniquePerPod(n.records[ns]) && UniquePerNetNs(n.records[ns])
  }

  lemma PutKeepsUnique(n: Node, m: Node, w: Wire)
    requires UniqueInv(n) && Put(n, m, w)
    ensures UniqueInv(m)
  {
    UpsertKeepsUnique(Listed(n, w.topoNs), StatusOf(n.name, w));
  }

  lemma AddLocalPuts(n: Node, d: WireDef)
    ensures Opens(n, d.hostIface) ==>
      KeyOfDef(d) in AddLocal(n, d).0.wires && KeyOf(AddLocal(n, d).0.wires[KeyOfDef(d)]) == KeyOfDef(d)
      && AddLocal(n, d).0.wires[KeyOfDef(d)].topoNs == d.topoNs && Put(n, AddLocal(n, d).0, AddLocal(n, d).0.wires[KeyOfDef(d)])
    ensures !Opens(n, d.hostIface) ==> AddLocal(n, d).0 == n
  {
  }

  lemma AddLocalKeepsUnique(n: Node, d: WireDef)
    requires UniqueInv(n)
    ensures UniqueInv(AddLocal(n, d).0)
  {
    AddLocalPuts(n, d);
    if Opens(n, d.hostIface) { PutKeepsUnique(n, AddLocal(n, d).0, AddLocal(n, d).0.wires[KeyOfDef(d)]); }
  }

  lemma RemoveOutcome(n: Node, w: Wire, stuck: bool)
    ensures var m := Remove(n, w, stuck); m.name == n.name && m.wires == n.wires && m.limbo <= n.limbo
    ensures var m := Remove(n, w, stuck);
      m.records == n.records || (w.topoNs in n.records && m.records == n.records[w.topoNs := WithoutLink(n.records[w.topoNs], w.uid)])
  {
    hide WithoutLink;
  }

  lemma RemoveKeepsUnique(n: Node, w: Wire, stuck: bool)
    requires UniqueInv(n)
    ensures UniqueInv(Remove(n, w, stuck))
  {
    RemoveOutcome(n, w, stuck);
    if w.topoNs in n.records { DeletesKeepUnique(n.records[w.topoNs], w.uid, ""); }
  }

  lemma OpKeepsUnique(own: Owners, n: Node, op: Op)
    requires UniqueInv(n) && TableInv(n) && OwnersInv(own, n) && Legal(own, n, op)
    ensures UniqueInv(Do(n, op))
  {
    match op
    case OpAddRemote(d, host, f) => AddRemoteKeepsUnique(own, n, d, host, f);
    case OpAddLocal(d) => AddLocalKeepsUnique(n, d);
    case OpRemove(w, stuck) => RemoveKeepsUnique(n, w, stuck);
    case OpPurge(ns, pod) => if ns in n.records { DeletesKeepUnique(n.records[ns], 0, pod); }
    case _ =>
  }

  lemma AddRemoteKeepsUnique(own: Owners, n: Node, d: WireDef, host: string, f: Faults)
    requires UniqueInv(n) && TableInv(n) && OwnersInv(own, n) && Owned(own, d)
    ensures UniqueInv(AddRemote(n, d, host, f).0)
  {
    AddRemoteOutcome(own, n, d, host, f);
    var (m, r) := AddRemote(n, d, host, f);
    if r.Ok? { PutKeepsUnique(n, m, m.wires[KeyOfDef(d)]); }
  }

  /** After any run an object holds at most one record per link and pod, and at most
      one per link and netns. */
  lemma {:induction false} RunKeepsUnique(own: Owners, n: Node, ops: seq<Op>)
    requires Inv(own, n) && UniqueInv(n) && LegalRun(own, n, ops)
    ensures UniqueInv(Run(n, ops))
  {
    if ops != [] {
      var front := ops[..|ops| - 1];
      RunKeepsUnique(own, n, front);
      RunKeepsInv(own, n, front);
      OpKeepsUnique(own, Run(n, front), ops[|ops| - 1]);
    }
  }

  // --------------------------------------------------- listing the records

  /** The records of the objects, object by object in the order they are listed. */
  function ListAll(n: Node, order: seq<string>): seq<Record> {
    if order == [] then [] else ListAll(n, order[..|order| - 1]) + Listed(n, order[|order| - 1])
  }

  /** Every object once. */
  ghost predicate Covers(n: Node, order: seq<string>) {
    && (forall ns :: ns in n.records ==> ns in order)
    && (forall i, j :: 0 <= i < j < |order| ==> order[i] != order[j])
  }

  lemma {:induction false} ListAllHolds(n: Node, order: seq<string>, r: Record)
    requires HomeIn(n)
    ensures r in ListAll(n, order) <==> r.topoNs in order && Held(n, r)
  {
    if order != [] {
      var front, ns := order[..|order| - 1], order[|order| - 1];
      assert order == front + [ns];
      ListAllHolds(n, front, r);
    }
  }

  lemma DistinctConcat(a: seq<Record>, b: seq<Record>)
    requires DistinctKeys(a) && DistinctKeys(b)
    requires forall x, y :: x in a && y in b ==> KeyOfRecord(x) != KeyOfRecord(y)
    ensures DistinctKeys(a + b)
  {
  }

  ghost predicate NetNsOwned(own: Owners, n: Node) {
    forall r :: Held(n, r) ==> own(r.netNs).0 == r.topoNs
  }

  lemma {:induction false} ListAllDistinct(own: Owners, n: Node, order: seq<string>)
    requires HomeIn(n) && UniqueInv(n) && NetNsOwned(own, n)
    requires forall i, j :: 0 <= i < j < |order| ==> order[i] != order[j]
    ensures DistinctKeys(ListAll(n, order))
  {
    if order != [] {
      var front, ns := order[..|order| - 1], order[|order| - 1];
      ListAllDistinct(own, n, front);
      var a, b := ListAll(n, front), Listed(n, ns);
      forall x, y | x in a && y in b ensures KeyOfRecord(x) != KeyOfRecord(y) {
        ListAllHolds(n, front, x);
        assert Held(n, y) && own(x.netNs).0 == x.topoNs && own(y.netNs).0 == y.topoNs;
      }
      DistinctConcat(a, b);
    }
  }

  lemma RecordsAreOwned(own: Owners, n: Node)
    requires Inv(own, n)
    ensures HomeIn(n) && NetNsOwned(own, n)
  {
    forall r | Held(n, r) ensures own(r.netNs).0 == r.topoNs {
      assert Accounted(n, r);
    }
  }

  /** Listed in any order, the objects hold each netns and link once; so recovery is
      exact for every reachable state, also one the daemon crashed in. */
  lemma ListsAreDistinct(own: Owners, n: Node, order: seq<string>)
    requires Inv(own, n) && UniqueInv(n) && Covers(n, order)
    ensures HomeIn(n) && Lists(n, ListAll(n, order)) && DistinctKeys(ListAll(n, order))
  {
    RecordsAreOwned(own, n);
    ListAllDistinct(own, n, order);
    forall r ensures r in ListAll(n, order) <==> Held(n, r) { ListAllHolds(n, order, r); }
  }

  lemma ReachableListsAreDistinct(own: Owners, name: string, ops: seq<Op>, order: seq<string>)
    requires LegalRun(own, Start(name), ops) && Covers(Run(Start(name), ops), order)
    ensures var n := Run(Start(name), ops); var rs := ListAll(n, order);
      HomeIn(n) && Lists(n, rs) && DistinctKeys(rs)
  {
    StartInv(own, name);
    RunKeepsInv(own, Start(name), ops);
    RunKeepsUnique(own, Start(name), ops);
    ListsAreDistinct(own, Run(Start(name), ops), order);
  }

  /** The removal of w is not finished, or has failed. */
  predicate Leaving(n: Node, w: Wire) {
    w in n.limbo || w in n.failed
  }

  /** The removal of a wire under k is not finished, or has failed, while its record is
      still there and its interface can be opened. */
  ghost predicate LeavesARemnant(n: Node, k: Key) {
    exists w :: Leaving(n, w) && KeyOf(w) == k && Held(n, StatusOf(n.name, w)) && Live(n, StatusOf(n.name, w))
  }

  /** After any run a restart re-adopts only wires that were tracked, or whose removal was
      not finished or had failed, each with the status it had. Of the keys that were
      not tracked any more it re-adopts exactly those with such a remnant. */
  lemma NothingDeletedComesBack(own: Owners, name: string, ops: seq<Op>, order: seq<string>, k: Key)
    requires LegalRun(own, Start(name), ops) && Covers(Run(Start(name), ops), order)
    ensures var n := Run(Start(name), ops); var m := ReconAll(Restarted(n), ListAll(n, order));
      k in m.wires ==>
        || (k in n.wires && StatusOf(name, m.wires[k]) == StatusOf(name, n.wires[k]))
        || (exists w :: Leaving(n, w) && KeyOf(w) == k && StatusOf(name, m.wires[k]) == StatusOf(name, w))
    ensures var n := Run(Start(name), ops); var m := ReconAll(Restarted(n), ListAll(n, order));
      k !in n.wires ==> (k in m.wires <==> LeavesARemnant(n, k))
  {
    var n := Run(Start(name), ops);
    var rs := ListAll(n, order);
    ReachableListsAreDistinct(own, name, ops, order);
    Recovers(n, rs);
    var m := ReconAll(Restarted(n), rs);
    NameStays(Start(name), ops);
    StartInv(own, name);
    RunKeepsInv(own, Start(name), ops);
    if k in m.wires {
      var r :| Held(n, r) && Live(n, r) && KeyOfRecord(r) == k;
      assert Recovered(m, r);
      HeldIsAccounted(n, r);
    }
  }

  lemma HeldIsAccounted(n: Node, r: Record)
    requires RecordsInv(n) && TableInv(n) && Held(n, r)
    ensures || (KeyOfRecord(r) in n.wires && StatusOf(n.name, n.wires[KeyOfRecord(r)]) == r)
            || (exists w :: Leaving(n, w) && KeyOf(w) == KeyOfRecord(r) && StatusOf(n.name, w) == r)
  {
    assert Accounted(n, r);
    if w :| w in n.limbo + n.failed && StatusOf(n.name, w) == r { assert Leaving(n, w); }
  }

  // ------------------------------------------------- one end of a link per node

  predicate SameLink(v: Wire, w: Wire) {
    v.topoNs == w.topoNs && v.uid == w.uid
  }

  /** Every tracked wire is recorded, and no other wire of the node, tracked or being
      removed, is of its link. */
  ghost predicate ExactInv(n: Node) {
    && (forall k :: k in n.wires ==> StatusOf(n.name, n.wires[k]) in Listed(n, n.wires[k].topoNs))
    && (forall j, k :: j in n.wires && k in n.wires && j != k ==> !SameLink(n.wires[j], n.wires[k]))
    && (forall k, w :: k in n.wires && w in n.limbo ==> !SameLink(n.wires[k], w))
  }

  /** No other wire of the link is on the node. */
  predicate OnlyEnd(n: Node, d: WireDef) {
    && (forall k :: k in n.wires && k != KeyOfDef(d) ==> !(n.wires[k].topoNs == d.topoNs && n.wires[k].uid == d.uid))
    && (forall w :: w in n.limbo ==> !(w.topoNs == d.topoNs && w.uid == d.uid))
  }

  /** At most one end of a link is on a node, its deletion is over before it is made
      again, and a purge comes after the pod's wires were extracted. */
  predicate OneEnd(n: Node, op: Op) {
    && (op.OpAddLocal? ==> OnlyEnd(n, op.d))
    && (op.OpAddRemote? ==> OnlyEnd(n, op.d))
    && (op.OpPurge? ==> forall k :: k in n.wires ==> !(n.wires[k].topoNs == op.topoNs && n.wires[k].podName == op.podName))
  }

  predicate OneEndRun(n: Node, ops: seq<Op>) {
    ops == [] || (OneEndRun(n, ops[..|ops| - 1]) && OneEnd(Run(n, ops[..|ops| - 1]), ops[|ops| - 1]))
  }

  lemma PutKeepsExact(n: Node, m: Node, w: Wire)
    requires ExactInv(n) && TableInv(n) && Put(n, m, w)
    requires forall k :: k in n.wires && k != KeyOf(w) ==> !SameLink(n.wires[k], w)
    requires forall v :: v in n.limbo ==> !SameLink(w, v)
    ensures ExactInv(m)
  {
    UpsertContents(Listed(n, w.topoNs), StatusOf(n.name, w));
    forall k | k in m.wires ensures StatusOf(m.name, m.wires[k]) in Listed(m, m.wires[k].topoNs) {
      if k != KeyOf(w) && m.wires[k].topoNs == w.topoNs {
        assert Unrelated(StatusOf(n.name, n.wires[k]), StatusOf(n.name, w));
      }
    }
  }

  lemma AddRemoteKeepsExact(own: Owners, n: Node, d: WireDef, host: string, f: Faults)
    requires ExactInv(n) && TableInv(n) && OwnersInv(own, n) && Owned(own, d) && OnlyEnd(n, d)
    ensures ExactInv(AddRemote(n, d, host, f).0)
  {
    AddRemoteOutcome(own, n, d, host, f);
    var (m, r) := AddRemote(n, d, host, f);
    if r.Ok? { PutKeepsExact(n, m, m.wires[KeyOfDef(d)]); }
  }

  lemma RemoveKeepsExact(n: Node, w: Wire, stuck: bool)
    requires ExactInv(n) && w in n.limbo
    ensures ExactInv(Remove(n, w, stuck))
  {
    RemoveOutcome(n, w, stuck);
    LinkGoneKeepsExact(n, Remove(n, w, stuck), w);
  }

  lemma LinkGoneKeepsExact(n: Node, m: Node, w: Wire)
    requires ExactInv(n) && w in n.limbo && m.name == n.name && m.wires == n.wires && m.limbo <= n.limbo
    requires m.records == n.records || (w.topoNs in n.records && m.records == n.records[w.topoNs := WithoutLink(n.records[w.topoNs], w.uid)])
    ensures ExactInv(m)
  {
    forall k | k in m.wires ensures StatusOf(m.name, m.wires[k]) in Listed(m, m.wires[k].topoNs) {
      assert !SameLink(n.wires[k], w);
    }
  }

  lemma PurgeKeepsExact(n: Node, topoNs: string, podName: string)
    requires ExactInv(n) && OneEnd(n, OpPurge(topoNs, podName))
    ensures ExactInv(Purge(n, topoNs, podName))
  {
  }

  lemma ExactFrame(n: Node, m: Node)
    requires ExactInv(n) && m.name == n.name && m.records == n.records
    requires forall k :: k in m.wires ==> k in n.wires && (m.wires[k] == n.wires[k] || m.wires[k] == n.wires[k].(ready := false))
    requires forall w :: w in m.limbo ==> w in n.limbo || (KeyOf(w) !in m.wires && exists k :: k in n.wires && n.wires[k] == w && k == KeyOf(w))
    ensures ExactInv(m)
  {
  }

  lemma AddLocalKeepsExact(n: Node, d: WireDef)
    requires ExactInv(n) && TableInv(n) && OnlyEnd(n, d)
    ensures ExactInv(AddLocal(n, d).0)
  {
    AddLocalPuts(n, d);
    if Opens(n, d.hostIface) { PutKeepsExact(n, AddLocal(n, d).0, AddLocal(n, d).0.wires[KeyOfDef(d)]); }
  }

  lemma ExtractKeepsExact(n: Node, k: Key)
    requires ExactInv(n) && TableInv(n)
    ensures ExactInv(Extract(n, k))
  {
    ExactFrame(n, Extract(n, k));
  }

  lemma OpKeepsExact(own: Owners, n: Node, op: Op)
    requires ExactInv(n) && TableInv(n) && OwnersInv(own, n) && Legal(own, n, op) && OneEnd(n, op)
    ensures ExactInv(Do(n, op))
  {
    match op
    case OpMakeVeth(p, host) => ExactFrame(n, Do(n, op));
    case OpAddRemote(d, host, f) => AddRemoteKeepsExact(own, n, d, host, f);
    case OpAddLocal(d) => AddLocalKeepsExact(n, d);
    case OpWireDown(k) => ExactFrame(n, WireDown(n, k));
    case OpExtract(k) => ExtractKeepsExact(n, k);
    case OpRemove(w, stuck) => if w in n.limbo { RemoveKeepsExact(n, w, stuck); }
    case OpPurge(ns, pod) => PurgeKeepsExact(n, ns, pod);
    case OpLost(gone) => ExactFrame(n, Drop(n, gone));
    case OpDeaf(_) => ExactFrame(n, Do(n, op));
  }

  lemma {:induction false} RunKeepsExact(own: Owners, name: string, ops: seq<Op>)
    requires LegalRun(own, Start(name), ops) && OneEndRun(Start(name), ops)
    ensures ExactInv(Run(Start(name), ops))
  {
    if ops != [] {
      var front := ops[..|ops| - 1];
      RunKeepsExact(own, name, front);
      StartInv(own, name);
      RunKeepsInv(own, Start(name), front);
      OpKeepsExact(own, Run(Start(name), front), ops[|ops| - 1]);
    }
  }

  /** The interface a wire was made for still exists and can be opened. */
  predicate Standing(n: Node, w: Wire) {
    Opens(n, w.ifaceName) && n.links[w.ifaceName] == w.ifaceId
  }

  /** m tracks the same wires as n, with the same status and interface, ready, each
      with its handle, and has the same records. */
  ghost predicate SameWires(n: Node, m: Node) {
    && m.records == n.records && m.wires.Keys == n.wires.Keys
    && forall k :: k in n.wires ==> Reborn(n.name, n.wires[k], m.wires[k]) && n.wires[k].ifaceId in m.handles
  }

  lemma AllRecordedAreLive(n: Node, r: Record)
    requires RecordsInv(n) && Undisturbed(n) && Held(n, r)
    ensures Live(n, r) && KeyOfRecord(r) in n.wires
  {
    assert Accounted(n, r);
  }

  lemma RestartOfExact(n: Node, rs: seq<Record>)
    requires ExactInv(n) && TableInv(n) && HomeIn(n) && Lists(n, rs) && DistinctKeys(rs)
    requires forall k :: k in n.wires ==> Standing(n, n.wires[k])
    requires forall r :: Held(n, r) ==> Live(n, r) && KeyOfRecord(r) in n.wires
    ensures SameWires(n, ReconAll(Restarted(n), rs))
  {
    hide ExactInv, TableInv, HomeIn, Lists, DistinctKeys, Recovered, Held, Live, Reborn, Standing, Spared, ReconAll;
    Recovers(n, rs);
    NothingDoomed(n, rs);
    EveryWireComesBack(n, ReconAll(Restarted(n), rs));
  }

  lemma EveryWireComesBack(n: Node, m: Node)
    requires ExactInv(n) && TableInv(n) && SameWorld(Restarted(n), m)
    requires forall k :: k in n.wires ==> Standing(n, n.wires[k])
    requires forall r :: Held(n, r) && Live(n, r) ==> Recovered(m, r)
    ensures forall k :: k in n.wires ==> k in m.wires && Reborn(n.name, n.wires[k], m.wires[k]) && n.wires[k].ifaceId in m.handles
  {
    forall k | k in n.wires ensures k in m.wires && Reborn(n.name, n.wires[k], m.wires[k]) && n.wires[k].ifaceId in m.handles {
      ComesBack(n, m, k);
    }
  }

  /** A restart of an undisturbed node is transparent. */
  lemma RestartIsTransparent(own: Owners, name: string, ops: seq<Op>, order: seq<string>)
    requires LegalRun(own, Start(name), ops) && OneEndRun(Start(name), ops)
    requires Undisturbed(Run(Start(name), ops)) && Covers(Run(Start(name), ops), order)
    ensures SameWires(Run(Start(name), ops), ReconAll(Restarted(Run(Start(name), ops)), ListAll(Run(Start(name), ops), order)))
  {
    ReachableListsAreDistinct(own, name, ops, order);
    RunKeepsExact(own, name, ops);
    StartInv(own, name);
    RunKeepsInv(own, Start(name), ops);
    var n := Run(Start(name), ops);
    forall r | Held(n, r) ensures Live(n, r) && KeyOfRecord(r) in n.wires { AllRecordedAreLive(n, r); }
    RestartOfExact(n, ListAll(n, order));
  }

  /** No removal is pending or has failed, and every wire has its interface. */
  predicate Undisturbed(n: Node) {
    n.limbo == {} && n.failed == {} && forall k :: k in n.wires ==> Standing(n, n.wires[k])
  }

  lemma ComesBack(n: Node, m: Node, k: Key)
    requires ExactInv(n) && TableInv(n) && k in n.wires && Standing(n, n.wires[k]) && SameWorld(Restarted(n), m)
    requires forall r :: Held(n, r) && Live(n, r) ==> Recovered(m, r)
    ensures k in m.wires && Reborn(n.name, n.wires[k], m.wires[k]) && n.wires[k].ifaceId in m.handles
  {
    var r := StatusOf(n.name, n.wires[k]);
    assert Held(n, r) && KeyOfRecord(r) == k;
    assert Recovered(m, r);
  }

  /** v stands for the same wire as w, up to its stop channel and its originator. */
  predicate Reborn(name: string, w: Wire, v: Wire) {
    StatusOf(name, v) == StatusOf(name, w) && v.ifaceId == w.ifaceId && v.ready
  }

  lemma NothingDoomed(n: Node, rs: seq<Record>)
    requires Lists(n, rs) && forall r :: Held(n, r) ==> Live(n, r)
    ensures forall ns :: ns in n.records ==> Filter(n.records[ns], Spared(n, rs)) == n.records[ns]
  {
    forall ns | ns in n.records ensures Filter(n.records[ns], Spared(n, rs)) == n.records[ns] {
      FilterAll(n.records[ns], Spared(n, rs));
    }
  }
}
