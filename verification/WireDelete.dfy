/** Deleting all wires of a pod: the outcome as one step, whatever order the wires are
    taken out of the table in. */
module WireDelete {
  import opened WireRecords
  import opened WireNode
  import opened WireInvariants
  import opened WireRecon

  predicate OfPod(w: Wire, topoNs: string, podName: string) {
    w.podName == podName && w.topoNs == topoNs
  }

  function PodKeys(n: Node, topoNs: string, podName: string): set<Key> {
    set k | k in n.wires && OfPod(n.wires[k], topoNs, podName)
  }

  /** The removal of the wire's veth fails: `stuck` says so, and the veth exists. */
  predicate Jammed(n: Node, stuck: set<Key>, k: Key)
    requires k in n.wires
  {
    k in stuck && WithIndex(n, n.wires[k].ifaceId) != {}
  }

  function Ids(n: Node, ks: set<Key>): set<int> {
    set k | k in ks && k in n.wires :: n.wires[k].ifaceId
  }

  function Stops(n: Node, ks: set<Key>): set<nat> {
    set k | k in ks && k in n.wires && n.wires[k].ready :: n.wires[k].stop
  }

  function Failures(n: Node, ks: set<Key>, stuck: set<Key>): set<Wire> {
    set k | k in ks && k in n.wires && Jammed(n, stuck, k) :: n.wires[k].(ready := false)
  }

  /** The wire of k is removed for good and has h as its interface. */
  predicate TakesAway(n: Node, stuck: set<Key>, k: Key, h: string) {
    k in n.wires && !Jammed(n, stuck, k) && h in n.links && n.links[h] == n.wires[k].ifaceId
  }

  function Gone(n: Node, ks: set<Key>, stuck: set<Key>): set<string> {
    set h | h in n.links && exists k :: k in ks && TakesAway(n, stuck, k, h)
  }

  /** The wire of k is removed for good and is e's, by link and namespace. */
  predicate Unrecords(n: Node, stuck: set<Key>, k: Key, e: Record, ns: string) {
    k in n.wires && !Jammed(n, stuck, k) && n.wires[k].uid == e.linkId && n.wires[k].topoNs == ns
  }

  predicate Lost(n: Node, ks: set<Key>, stuck: set<Key>, ns: string, e: Record) {
    exists k :: k in ks && Unrecords(n, stuck, k, e, ns)
  }

  function Remaining(n: Node, ks: set<Key>, stuck: set<Key>, ns: string): Record -> bool {
    e => !Lost(n, ks, stuck, ns, e)
  }

  function RecordsLeft(n: Node, ks: set<Key>, stuck: set<Key>): map<string, seq<Record>> {
    map ns | ns in n.records :: Filter(n.records[ns], Remaining(n, ks, stuck, ns))
  }

  /** The wires under ks extracted and removed. */
  function DeleteAll(n: Node, ks: set<Key>, stuck: set<Key>): Node {
    Drop(n, Gone(n, ks, stuck)).(
      wires := n.wires - ks, handles := n.handles - Ids(n, ks),
      closed := n.closed + Stops(n, ks), failed := n.failed + Failures(n, ks, stuck),
      records := RecordsLeft(n, ks, stuck))
  }

  predicate NoneJammed(n: Node, ks: set<Key>, stuck: set<Key>) {
    forall k :: k in ks && k in n.wires ==> !Jammed(n, stuck, k)
  }

  /** What the daemon does on a pod's deletion, and whether it reports success. */
  function DeletePod(n: Node, topoNs: string, podName: string, stuck: set<Key>): (Node, bool) {
    var ks := PodKeys(n, topoNs, podName);
    var m := DeleteAll(n, ks, stuck);
    if NoneJammed(n, ks, stuck) then (Purge(m, topoNs, podName), true) else (m, false)
  }

  // ------------------------------------------------------- one wire at a time

  function DeleteOne(n: Node, k: Key, stuck: bool): Node
    requires k in n.wires
  {
    Remove(Extract(n, k), n.wires[k], stuck)
  }

  lemma DropTwice(n: Node, a: set<string>, m: Node, b: set<string>)
    requires m.links == Drop(n, a).links && m.pods == Drop(n, a).pods
    ensures Drop(m, b).links == Drop(n, a + b).links && Drop(m, b).pods == Drop(n, a + b).pods
  {
  }

  lemma NothingDeleted(n: Node, stuck: set<Key>)
    ensures DeleteAll(n, {}, stuck) == n
  {
    assert Gone(n, {}, stuck) == {} && Drop(n, {}).links == n.links && Drop(n, {}).pods == n.pods;
    forall ns | ns in n.records ensures RecordsLeft(n, {}, stuck)[ns] == n.records[ns] {
      FilterAll(n.records[ns], Remaining(n, {}, stuck, ns));
    }
    assert RecordsLeft(n, {}, stuck) == n.records;
  }

  /** The interface of a wire not yet deleted is untouched by the deletions so far. */
  lemma InterfaceStays(n: Node, ks: set<Key>, stuck: set<Key>, k: Key)
    requires TableInv(n) && k in n.wires && k !in ks
    ensures WithIndex(DeleteAll(n, ks, stuck), n.wires[k].ifaceId) == WithIndex(n, n.wires[k].ifaceId)
  {
  }

  lemma GoneGrows(n: Node, ks: set<Key>, stuck: set<Key>, k: Key)
    requires k in n.wires
    ensures Gone(n, ks + {k}, stuck) == Gone(n, ks, stuck) + if Jammed(n, stuck, k) then {} else WithIndex(n, n.wires[k].ifaceId)
  {
    var extra := if Jammed(n, stuck, k) then {} else WithIndex(n, n.wires[k].ifaceId);
    forall h ensures h in Gone(n, ks + {k}, stuck) <==> h in Gone(n, ks, stuck) || h in extra {
      if h in extra { assert k in ks + {k} && TakesAway(n, stuck, k, h); }
      if h in Gone(n, ks, stuck) {
        var j :| j in ks && TakesAway(n, stuck, j, h);
        assert j in ks + {k};
      }
    }
  }

  lemma LostGrows(n: Node, ks: set<Key>, stuck: set<Key>, k: Key, ns: string, e: Record)
    requires k in n.wires
    ensures Lost(n, ks + {k}, stuck, ns, e) <==> Lost(n, ks, stuck, ns, e) || Unrecords(n, stuck, k, e, ns)
  {
    if Lost(n, ks, stuck, ns, e) {
      var j :| j in ks && Unrecords(n, stuck, j, e, ns);
      assert j in ks + {k};
    }
    if Unrecords(n, stuck, k, e, ns) { assert k in ks + {k}; }
  }

  lemma RemainingShrinks(n: Node, ks: set<Key>, stuck: set<Key>, k: Key, ns: string)
    requires k in n.wires && ns in n.records
    ensures RecordsLeft(n, ks + {k}, stuck)[ns] ==
      if !Jammed(n, stuck, k) && ns == n.wires[k].topoNs then WithoutLink(RecordsLeft(n, ks, stuck)[ns], n.wires[k].uid)
      else RecordsLeft(n, ks, stuck)[ns]
  {
    var p, q := Remaining(n, ks, stuck, ns), Remaining(n, ks + {k}, stuck, ns);
    forall e ensures q(e) <==> p(e) && !Unrecords(n, stuck, k, e, ns) { LostGrows(n, ks, stuck, k, ns, e); }
    if !Jammed(n, stuck, k) && ns == n.wires[k].topoNs {
      FilterTwice(n.records[ns], p, NotLink(n.wires[k].uid), q);
    } else {
      FilterCongruent(n.records[ns], p, q);
    }
  }

  lemma SetsGrow(n: Node, ks: set<Key>, stuck: set<Key>, k: Key)
    requires k in n.wires
    ensures Ids(n, ks + {k}) == Ids(n, ks) + {n.wires[k].ifaceId}
    ensures Stops(n, ks + {k}) == Stops(n, ks) + if n.wires[k].ready then {n.wires[k].stop} else {}
    ensures Failures(n, ks + {k}, stuck) == Failures(n, ks, stuck) + if Jammed(n, stuck, k) then {n.wires[k].(ready := false)} else {}
  {
    assert k in ks + {k};
  }

  predicate JammedNow(m: Node, w: Wire, stuck: bool) {
    stuck && WithIndex(m, w.ifaceId) != {}
  }

  lemma DeleteOneTable(m: Node, k: Key, stuck: bool)
    requires k in m.wires && m.wires[k] !in m.limbo
    ensures var o, w := DeleteOne(m, k, stuck), m.wires[k];
      o.wires == m.wires - {k} && o.handles == m.handles - {w.ifaceId} && o.limbo == m.limbo
      && o.closed == m.closed + (if w.ready then {w.stop} else {})
      && o.failed == m.failed + (if JammedNow(m, w, stuck) then {w.(ready := false)} else {})
      && o.name == m.name && o.deaf == m.deaf && o.nextIndex == m.nextIndex && o.nextStop == m.nextStop
  {
    assert m.limbo + {m.wires[k]} - {m.wires[k]} == m.limbo;
  }

  lemma DeleteOneWorld(m: Node, k: Key, stuck: bool)
    requires k in m.wires
    ensures var o, w := DeleteOne(m, k, stuck), m.wires[k];
      if JammedNow(m, w, stuck) then o.links == m.links && o.pods == m.pods && o.records == m.records
      else
        var d := Drop(m, WithIndex(m, w.ifaceId));
        o.links == d.links && o.pods == d.pods
        && o.records == if w.topoNs in m.records then m.records[w.topoNs := WithoutLink(m.records[w.topoNs], w.uid)] else m.records
  {
  }

  lemma OneMoreRecords(n: Node, ks: set<Key>, stuck: set<Key>, k: Key, m: Node, o: Node)
    requires k in n.wires && m.records == RecordsLeft(n, ks, stuck)
    requires var w := n.wires[k];
      o.records == if !Jammed(n, stuck, k) && w.topoNs in m.records then m.records[w.topoNs := WithoutLink(m.records[w.topoNs], w.uid)] else m.records
    ensures o.records == RecordsLeft(n, ks + {k}, stuck)
  {
    hide Remaining, Jammed, Unrecords;
    var all := RecordsLeft(n, ks + {k}, stuck);
    assert o.records.Keys == all.Keys;
    forall ns | ns in n.records ensures o.records[ns] == all[ns] {
      RemainingShrinks(n, ks, stuck, k, ns);
    }
  }

  lemma JammedStays(n: Node, ks: set<Key>, stuck: set<Key>, k: Key)
    requires TableInv(n) && k in n.wires && k !in ks
    ensures var m := DeleteAll(n, ks, stuck);
      k in m.wires && m.wires[k] == n.wires[k] && m.wires[k] !in m.limbo
    ensures JammedNow(DeleteAll(n, ks, stuck), n.wires[k], k in stuck) <==> Jammed(n, stuck, k)
  {
    InterfaceStays(n, ks, stuck, k);
  }

  /** o is m without one more wire, m is n without the wires under ks. */
  lemma OneMoreLinks(n: Node, ks: set<Key>, stuck: set<Key>, k: Key, m: Node, o: Node)
    requires k in n.wires
    requires m.links == Drop(n, Gone(n, ks, stuck)).links && m.pods == Drop(n, Gone(n, ks, stuck)).pods
    requires var d := if Jammed(n, stuck, k) then m else Drop(m, WithIndex(n, n.wires[k].ifaceId));
      o.links == d.links && o.pods == d.pods
    ensures o.links == Drop(n, Gone(n, ks + {k}, stuck)).links && o.pods == Drop(n, Gone(n, ks + {k}, stuck)).pods
  {
    GoneGrows(n, ks, stuck, k);
    var gone := Gone(n, ks, stuck);
    assert gone + {} == gone;
    DropTwice(n, gone, m, WithIndex(n, n.wires[k].ifaceId));
  }

  lemma OneMoreTable(n: Node, ks: set<Key>, stuck: set<Key>, k: Key, m: Node, o: Node)
    requires k in n.wires
    requires m.wires == n.wires - ks && m.handles == n.handles - Ids(n, ks)
    requires o.wires == m.wires - {k} && o.handles == m.handles - {n.wires[k].ifaceId}
    ensures o.wires == n.wires - (ks + {k}) && o.handles == n.handles - Ids(n, ks + {k})
  {
    SetsGrow(n, ks, stuck, k);
  }

  lemma OneMoreClosed(n: Node, ks: set<Key>, stuck: set<Key>, k: Key, m: Node, o: Node)
    requires k in n.wires
    requires m.closed == n.closed + Stops(n, ks) && m.failed == n.failed + Failures(n, ks, stuck)
    requires o.closed == m.closed + (if n.wires[k].ready then {n.wires[k].stop} else {})
    requires o.failed == m.failed + (if Jammed(n, stuck, k) then {n.wires[k].(ready := false)} else {})
    ensures o.closed == n.closed + Stops(n, ks + {k}) && o.failed == n.failed + Failures(n, ks + {k}, stuck)
  {
    SetsGrow(n, ks, stuck, k);
  }

  lemma OneMoreWorld(n: Node, ks: set<Key>, stuck: set<Key>, k: Key, m: Node, o: Node)
    requires k in n.wires && m == DeleteAll(n, ks, stuck)
    requires var d := if Jammed(n, stuck, k) then m else Drop(m, WithIndex(n, n.wires[k].ifaceId));
      o.links == d.links && o.pods == d.pods
    requires var w := n.wires[k];
      o.records == if !Jammed(n, stuck, k) && w.topoNs in m.records then m.records[w.topoNs := WithoutLink(m.records[w.topoNs], w.uid)] else m.records
    ensures var all := DeleteAll(n, ks + {k}, stuck); o.links == all.links && o.pods == all.pods && o.records == all.records
  {
    OneMoreLinks(n, ks, stuck, k, m, o);
    OneMoreRecords(n, ks, stuck, k, m, o);
  }

  /** One more wire, deleted after the others or together with them: the same. */
  lemma DeleteOneMore(n: Node, ks: set<Key>, stuck: set<Key>, k: Key)
    requires TableInv(n) && k in n.wires && k !in ks
    ensures k in DeleteAll(n, ks, stuck).wires
    ensures DeleteOne(DeleteAll(n, ks, stuck), k, k in stuck) == DeleteAll(n, ks + {k}, stuck)
  {
    hide Gone, RecordsLeft, Failures, Stops, Ids, Jammed, JammedNow, DeleteOne, TableInv;
    var m := DeleteAll(n, ks, stuck);
    JammedStays(n, ks, stuck, k);
    InterfaceStays(n, ks, stuck, k);
    DeleteOneWorld(m, k, k in stuck);
    DeleteOneTable(m, k, k in stuck);
    var o := DeleteOne(m, k, k in stuck);
    OneMoreWorld(n, ks, stuck, k, m, o);
    OneMoreTable(n, ks, stuck, k, m, o);
    OneMoreClosed(n, ks, stuck, k, m, o);
  }

  /** The channel of a ready wire is open until it is that wire's turn. */
  lemma StillOpen(n: Node, ks: set<Key>, stuck: set<Key>, k: Key)
    requires StopInv(n) && k in n.wires && k !in ks && n.wires[k].ready
    ensures n.wires[k].stop !in DeleteAll(n, ks, stuck).closed
  {
  }

  // -------------------------------------------------------- a whole deletion

  /** Success means: the pod has no wire, no record, and none of its interfaces. */
  lemma DeletePodClears(n: Node, topoNs: string, podName: string, stuck: set<Key>)
    requires DeletePod(n, topoNs, podName, stuck).1
    ensures var m := DeletePod(n, topoNs, podName, stuck).0; PodKeys(m, topoNs, podName) == {}
    ensures var m := DeletePod(n, topoNs, podName, stuck).0;
      forall e :: e in Listed(m, topoNs) ==> e.podName != podName
    ensures var m := DeletePod(n, topoNs, podName, stuck).0;
      forall k :: k in PodKeys(n, topoNs, podName) ==> WithIndex(m, n.wires[k].ifaceId) == {}
  {
    var ks := PodKeys(n, topoNs, podName);
    var m := DeletePod(n, topoNs, podName, stuck).0;
    forall k, h | k in ks && h in n.links && n.links[h] == n.wires[k].ifaceId ensures h !in m.links {
      assert TakesAway(n, stuck, k, h);
    }
  }

  /** A deletion succeeds if and only if every wire of the pod can lose its interface, or has
      lost it; whether it does or not, frames for the pod's wires find no handle. */
  lemma DeletePodSucceedsIff(n: Node, topoNs: string, podName: string, stuck: set<Key>)
    ensures DeletePod(n, topoNs, podName, stuck).1 <==>
      forall k, h :: k in n.wires && n.wires[k].topoNs == topoNs && n.wires[k].podName == podName && h in n.links && n.links[h] == n.wires[k].ifaceId ==> k !in stuck
    ensures forall k :: k in PodKeys(n, topoNs, podName) ==> n.wires[k].ifaceId !in DeletePod(n, topoNs, podName, stuck).0.handles
  {
    var ks := PodKeys(n, topoNs, podName);
    forall k | k in ks ensures Jammed(n, stuck, k) <==> k in stuck && exists h :: h in n.links && n.links[h] == n.wires[k].ifaceId {
      if h :| h in n.links && n.links[h] == n.wires[k].ifaceId { assert h in WithIndex(n, n.wires[k].ifaceId); }
    }
    forall k | k in ks ensures n.wires[k].ifaceId !in DeletePod(n, topoNs, podName, stuck).0.handles { assert n.wires[k].ifaceId in Ids(n, ks); }
  }

  /** A wire whose interface cannot be removed keeps it, is remembered as failed, and keeps
      its record too, unless another wire of its link went. */
  lemma FailureKeepsRecord(n: Node, topoNs: string, podName: string, stuck: set<Key>, k: Key, h: string)
    requires k in PodKeys(n, topoNs, podName) && k in stuck && h in n.links && n.links[h] == n.wires[k].ifaceId
    requires forall j :: j in n.wires && j != k ==> n.wires[j].ifaceId != n.wires[k].ifaceId && !(n.wires[j].uid == n.wires[k].uid && n.wires[j].topoNs == topoNs)
    ensures var (m, ok) := DeletePod(n, topoNs, podName, stuck);
      && !ok && h in m.links && m.links[h] == n.links[h] && n.wires[k].(ready := false) in m.failed
      && (Held(n, StatusOf(n.name, n.wires[k])) ==> Held(m, StatusOf(n.name, n.wires[k])))
  {
    var ks, r := PodKeys(n, topoNs, podName), StatusOf(n.name, n.wires[k]);
    assert h in WithIndex(n, n.wires[k].ifaceId) && Jammed(n, stuck, k);
    forall j | j in ks ensures !TakesAway(n, stuck, j, h) && (KeyOf(n.wires[k]).uid == n.wires[k].uid && Unrecords(n, stuck, j, r, topoNs) ==> false) {}
    assert !Lost(n, ks, stuck, topoNs, r);
  }

  lemma DeletePodTable(n: Node, topoNs: string, podName: string, stuck: set<Key>)
    ensures var m, d := DeletePod(n, topoNs, podName, stuck).0, DeleteAll(n, PodKeys(n, topoNs, podName), stuck);
      m.wires == d.wires && m.handles == d.handles && m.links == d.links && m.pods == d.pods
  {
    hide DeleteAll, NoneJammed, WithoutPod;
  }

  /** Success or not, other pods keep their wires, with handle and interface. */
  lemma DeletePodSparesWires(n: Node, topoNs: string, podName: string, stuck: set<Key>, k: Key)
    requires TableInv(n) && k in n.wires && !OfPod(n.wires[k], topoNs, podName)
    ensures var m := DeletePod(n, topoNs, podName, stuck).0; var w := n.wires[k];
      k in m.wires && m.wires[k] == w && w.ifaceId in m.handles && WithIndex(m, w.ifaceId) == WithIndex(n, w.ifaceId)
  {
    DeletePodTable(n, topoNs, podName, stuck);
    InterfaceStays(n, PodKeys(n, topoNs, podName), stuck, k);
  }

  /** And exactly their records of links that no removed wire was of. */
  lemma DeletePodSparesRecords(n: Node, topoNs: string, podName: string, stuck: set<Key>, ns: string, e: Record)
    requires HomeIn(n) && !(ns == topoNs && e.podName == podName)
    ensures var m := DeletePod(n, topoNs, podName, stuck).0;
      e in Listed(m, ns) <==> e in Listed(n, ns) && !Lost(n, PodKeys(n, topoNs, podName), stuck, ns, e)
  {
  }

  /** The wires under ks, extracted and removed one after the other. */
  lemma {:induction false} DeleteAllIsRun(own: Owners, n: Node, ks: set<Key>, stuck: set<Key>) returns (ops: seq<Op>)
    requires TableInv(n) && ks <= n.wires.Keys
    ensures Run(n, ops) == DeleteAll(n, ks, stuck) && LegalRun(own, n, ops)
  {
    hide DeleteAll, TableInv, Legal, Jammed, JammedNow;
    if ks == {} {
      ops := [];
      NothingDeleted(n, stuck);
    } else {
      var k :| k in ks;
      var front := DeleteAllIsRun(own, n, ks - {k}, stuck);
      DeleteOneMore(n, ks - {k}, stuck, k);
      JammedStays(n, ks - {k}, stuck, k);
      assert ks - {k} + {k} == ks;
      ops := AndOneMore(own, n, front, k, n.wires[k], k in stuck);
    }
  }

  lemma AndOneMore(own: Owners, n: Node, front: seq<Op>, k: Key, w: Wire, stuck: bool) returns (ops: seq<Op>)
    requires LegalRun(own, n, front)
    ensures Run(n, ops) == Remove(Extract(Run(n, front), k), w, stuck) && LegalRun(own, n, ops)
  {
    OneMoreOp(own, n, front, OpExtract(k));
    OneMoreOp(own, n, front + [OpExtract(k)], OpRemove(w, stuck));
    ops := front + [OpExtract(k)] + [OpRemove(w, stuck)];
  }

  /** A pod's deletion is a run of extractions and removals and, on success, a purge:
      whatever every run keeps, it keeps. */
  lemma DeletePodIsRun(own: Owners, n: Node, topoNs: string, podName: string, stuck: set<Key>) returns (ops: seq<Op>)
    requires TableInv(n)
    ensures Run(n, ops) == DeletePod(n, topoNs, podName, stuck).0 && LegalRun(own, n, ops)
  {
    ops := DeleteAllIsRun(own, n, PodKeys(n, topoNs, podName), stuck);
    if DeletePod(n, topoNs, podName, stuck).1 {
      OneMoreOp(own, n, ops, OpPurge(topoNs, podName));
      ops := ops + [OpPurge(topoNs, podName)];
    }
  }

  /** Deleting again after a failure reports success, whatever is stuck, and removes the
      pod's records; but the interface that could not be removed is still there, and
      no wire knows it. */
  lemma RetryForgetsInterface(n: Node, topoNs: string, podName: string, stuck: set<Key>, again: set<Key>, k: Key, h: string)
    requires TableInv(n) && k in PodKeys(n, topoNs, podName) && Jammed(n, stuck, k)
    requires h in n.links && n.links[h] == n.wires[k].ifaceId
    ensures !DeletePod(n, topoNs, podName, stuck).1
    ensures var (m, ok) := DeletePod(DeletePod(n, topoNs, podName, stuck).0, topoNs, podName, again);
      ok && h in m.links && m.links[h] == n.wires[k].ifaceId && (forall j :: j in m.wires ==> m.wires[j].ifaceId != n.wires[k].ifaceId)
    ensures var m := DeletePod(DeletePod(n, topoNs, podName, stuck).0, topoNs, podName, again).0;
      forall e :: e in Listed(m, topoNs) ==> e.podName != podName
  {
    var ks := PodKeys(n, topoNs, podName);
    var m := DeletePod(n, topoNs, podName, stuck).0;
    assert PodKeys(m, topoNs, podName) == {};
    NothingDeleted(m, again);
    forall j | j in ks ensures !TakesAway(n, stuck, j, h) {}
    assert h !in Gone(n, ks, stuck);
    DeletePodClears(m, topoNs, podName, again);
  }
}
