/** Interfaces that a successful deletion of a pod leaves behind. */
module WireLeftovers {
  import opened WireRecords
  import opened WireNode
  import opened WireInvariants
  import opened WireRecon
  import opened WireDelete

  /** A successful deletion leaves an interface exactly if it is not that of a wire the
      pod still had when the deletion began. */
  lemma DeletePodLeavesIff(n: Node, topoNs: string, podName: string, stuck: set<Key>, id: int)
    requires DeletePod(n, topoNs, podName, stuck).1
    ensures var m := DeletePod(n, topoNs, podName, stuck).0;
      WithIndex(m, id) != {} <==> WithIndex(n, id) != {} && forall k :: k in PodKeys(n, topoNs, podName) ==> n.wires[k].ifaceId != id
  {
    var ks, m := PodKeys(n, topoNs, podName), DeletePod(n, topoNs, podName, stuck).0;
    DeletePodTable(n, topoNs, podName, stuck);
    if h :| h in WithIndex(n, id) {
      if forall k :: k in ks ==> n.wires[k].ifaceId != id {
        assert h !in Gone(n, ks, stuck) && h in WithIndex(m, id);
      }
    }
    if h :| h in WithIndex(m, id) {
      assert h in WithIndex(n, id);
      forall k | k in ks ensures n.wires[k].ifaceId != id {
        assert !Jammed(n, stuck, k);
        assert h !in Gone(n, ks, stuck) && !TakesAway(n, stuck, k, h);
      }
    }
  }

  /** In particular those of wires of the pod whose removal failed before: such an
      interface goes only if a wire has taken it over since. */
  lemma FailedIsLeftIff(n: Node, topoNs: string, podName: string, stuck: set<Key>, w: Wire)
    requires DeletePod(n, topoNs, podName, stuck).1 && w in n.failed && OfPod(w, topoNs, podName)
    ensures var m := DeletePod(n, topoNs, podName, stuck).0;
      && w !in m.failed
      && (WithIndex(m, w.ifaceId) != {} <==>
            WithIndex(n, w.ifaceId) != {} && forall k :: k in PodKeys(n, topoNs, podName) ==> n.wires[k].ifaceId != w.ifaceId)
  {
    DeletePodLeavesIff(n, topoNs, podName, stuck, w.ifaceId);
  }

  // ------------------------------------------------------------- over runs

  /** The indices of all wires that were taken out of the table. */
  function Extracted(n: Node, ops: seq<Op>): set<int> {
    if ops == [] then {}
    else
      var m, op := Run(n, ops[..|ops| - 1]), ops[|ops| - 1];
      Extracted(n, ops[..|ops| - 1]) + if op.OpExtract? && op.k in m.wires then {m.wires[op.k].ifaceId} else {}
  }

  /** The indices of all wires whose removal failed. */
  function Failed(n: Node, ops: seq<Op>): set<int> {
    if ops == [] then {}
    else
      var m, op := Run(n, ops[..|ops| - 1]), ops[|ops| - 1];
      Failed(n, ops[..|ops| - 1]) + if op.OpRemove? && op.w in m.limbo && JammedNow(m, op.w, op.stuck) then {op.w.ifaceId} else {}
  }

  ghost predicate Removing(n: Node, id: int) {
    exists w :: w in n.limbo && w.ifaceId == id
  }

  /** No interface has the index, nor will one again. */
  predicate Retired(n: Node, id: int) {
    id < n.nextIndex && WithIndex(n, id) == {}
  }

  lemma AddRemoteKeepsRetired(n: Node, d: WireDef, host: string, f: Faults, id: int)
    requires Retired(n, id)
    ensures Retired(AddRemote(n, d, host, f).0, id)
  {
    hide Recorded, Upsert, StatusOf;
    var m := AddRemote(n, d, host, f).0;
    forall h | h in m.links ensures m.links[h] != id {
      if h in n.links { assert n.links[h] != id by { assert h !in WithIndex(n, id); } }
    }
  }

  lemma LessKeepsRetired(n: Node, m: Node, id: int)
    requires Retired(n, id) && m.nextIndex == n.nextIndex && forall h :: h in m.links ==> h in n.links && m.links[h] == n.links[h]
    ensures Retired(m, id)
  {
    forall h | h in m.links ensures m.links[h] != id { assert h !in WithIndex(n, id); }
  }

  lemma MakeVethKeepsRetired(n: Node, p: PodIface, host: string, id: int)
    requires Retired(n, id) && p !in n.pods && host !in n.links
    ensures Retired(MakeVeth(n, p, host), id)
  {
    var m := MakeVeth(n, p, host);
    forall h | h in m.links ensures m.links[h] != id { assert h !in WithIndex(n, id); }
  }

  lemma OpKeepsRetired(n: Node, op: Op, id: int)
    requires Retired(n, id)
    ensures Retired(Do(n, op), id)
  {
    match op
    case OpMakeVeth(p, host) => if p !in n.pods && host !in n.links { MakeVethKeepsRetired(n, p, host, id); }
    case OpAddRemote(d, host, f) => AddRemoteKeepsRetired(n, d, host, f, id);
    case OpRemove(w, stuck) =>
      RemoveShrinks(n, w, stuck);
      DropShrinks(n, WithIndex(n, w.ifaceId));
      LessKeepsRetired(n, Remove(n, w, stuck), id);
    case _ => LessKeepsRetired(n, Do(n, op), id);
  }

  /** A removal that does not fail retires the index. */
  lemma RemoveRetires(n: Node, w: Wire, stuck: bool)
    requires w in n.limbo && w.ifaceId < n.nextIndex && !JammedNow(n, w, stuck)
    ensures Retired(Remove(n, w, stuck), w.ifaceId)
  {
    var m := Remove(n, w, stuck);
    assert m.links == Drop(n, WithIndex(n, w.ifaceId)).links;
    forall h | h in m.links ensures m.links[h] != w.ifaceId { assert h !in WithIndex(n, w.ifaceId); }
  }

  lemma OpKeepsRemoving(n: Node, op: Op, id: int)
    requires IndicesInv(n) && Removing(n, id)
    ensures Removing(Do(n, op), id) || Retired(Do(n, op), id)
      || (op.OpRemove? && op.w in n.limbo && JammedNow(n, op.w, op.stuck) && op.w.ifaceId == id)
  {
    var w :| w in n.limbo && w.ifaceId == id;
    if op.OpRemove? && op.w == w {
      if !JammedNow(n, w, op.stuck) { RemoveRetires(n, w, op.stuck); }
    } else {
      LimboStays(n, op, w);
    }
  }

  lemma LimboStays(n: Node, op: Op, w: Wire)
    requires w in n.limbo && !(op.OpRemove? && op.w == w)
    ensures w in Do(n, op).limbo
  {
    match op
    case OpAddRemote(d, host, f) => AddRemoteKeepsLimbo(n, d, host, f);
    case OpRemove(_, _) =>
    case _ =>
  }

  lemma AddRemoteKeepsLimbo(n: Node, d: WireDef, host: string, f: Faults)
    ensures AddRemote(n, d, host, f).0.limbo == n.limbo
  {
    hide Recorded, Upsert, StatusOf;
    EnsureNoStaleTouchesNoWire(n, d, f);
  }

  lemma ExtractRemoves(n: Node, k: Key)
    requires k in n.wires
    ensures Removing(Extract(n, k), n.wires[k].ifaceId)
  {
    assert n.wires[k] in Extract(n, k).limbo;
  }

  /** A wire that was taken out is being removed, or its removal failed, or its
      interface is gone for good. */
  lemma {:induction false} ExtractedEnds(own: Owners, n: Node, ops: seq<Op>, id: int)
    requires Inv(own, n) && LegalRun(own, n, ops) && id in Extracted(n, ops)
    ensures Removing(Run(n, ops), id) || id in Failed(n, ops) || Retired(Run(n, ops), id)
  {
    hide Removing, Retired, Do, Legal, JammedNow;
    var front, op := ops[..|ops| - 1], ops[|ops| - 1];
    var m := Run(n, front);
    RunKeepsInv(own, n, front);
    if id in Extracted(n, front) {
      ExtractedEnds(own, n, front, id);
      if Removing(m, id) { OpKeepsRemoving(m, op, id); }
      if Retired(m, id) { OpKeepsRetired(m, op, id); }
    } else {
      ExtractRemoves(m, op.k);
      ExtractIsDone(m, op.k);
    }
  }

  lemma ExtractIsDone(n: Node, k: Key)
    ensures Do(n, OpExtract(k)) == Extract(n, k)
  {
  }

  /** After any run, a successful deletion leaves the interface of a former wire behind
      if and only if an earlier removal of a wire on it failed, it still exists, and no
      wire of the pod has it now. */
  lemma SuccessLeavesIff(own: Owners, name: string, ops: seq<Op>, topoNs: string, podName: string, stuck: set<Key>, id: int)
    requires LegalRun(own, Start(name), ops) && id in Extracted(Start(name), ops)
    requires var n := Run(Start(name), ops); DeletePod(n, topoNs, podName, stuck).1 && !Removing(n, id)
    ensures var n := Run(Start(name), ops); var m := DeletePod(n, topoNs, podName, stuck).0;
      WithIndex(m, id) != {} <==>
      && id in Failed(Start(name), ops) && WithIndex(n, id) != {}
      && forall k :: k in PodKeys(n, topoNs, podName) ==> n.wires[k].ifaceId != id
  {
    StartInv(own, name);
    ExtractedEnds(own, Start(name), ops, id);
    DeletePodLeavesIff(Run(Start(name), ops), topoNs, podName, stuck, id);
  }

  /** Such a run: a veth that could not be removed stays, and the next deletion says that
      all is well. */
  lemma LeftoverRun(name: string, d: WireDef, host: string) returns (ops: seq<Op>)
    ensures LegalRun(_ => (d.topoNs, d.podName), Start(name), ops)
    ensures var n := Run(Start(name), ops);
      PodKeys(n, d.topoNs, d.podName) == {} && DeletePod(n, d.topoNs, d.podName, {}).1
      && host in n.links && host in DeletePod(n, d.topoNs, d.podName, {}).0.links
  {
    var own: Owners := _ => (d.topoNs, d.podName);
    var k := KeyOfDef(d);
    var a := Op.OpAddRemote(d, host, NO_FAULTS);
    var n1 := Do(Start(name), a);
    OneMoreOp(own, Start(name), [], a);
    var w := n1.wires[k];
    var b, c := OpExtract(k), OpRemove(w, true);
    OneMoreOp(own, Start(name), [a], b);
    OneMoreOp(own, Start(name), [a] + [b], c);
    ops := [a] + [b] + [c];
    var n2 := Do(n1, b);
    assert host in WithIndex(n2, w.ifaceId);
    var n := Do(n2, c);
    assert n.wires == map[];
    assert PodKeys(n, d.topoNs, d.podName) == {};
    NothingDeleted(n, {});
  }
}
