/** The promises of the wire table, over all runs. */
module WireTheorems {
  import opened WireRecords
  import opened WireNode
  import opened WireInvariants

  /** Looking a wire up by the index of its interface finds its one owner, and the
      handle under that index writes to that interface. */
  lemma IndexHasOneOwner(own: Owners, name: string, ops: seq<Op>, j: Key, k: Key)
    requires LegalRun(own, Start(name), ops)
    requires var n := Run(Start(name), ops); j in n.wires && k in n.wires && n.wires[j].ifaceId == n.wires[k].ifaceId
    ensures j == k && KeyOf(Run(Start(name), ops).wires[k]) == k
    ensures var n := Run(Start(name), ops); var id := n.wires[k].ifaceId; id in n.handles && n.handles[id] == id
  {
    StartInv(own, name);
    RunKeepsInv(own, Start(name), ops);
  }

  /** Once every removal is finished or purged, each record is the status of the wire
      tracked under its netns and link: no deleted wire can come back. */
  lemma NoDeletedWireIsRecorded(own: Owners, name: string, ops: seq<Op>, ns: string, r: Record)
    requires LegalRun(own, Start(name), ops)
    requires var n := Run(Start(name), ops); n.limbo == {} && n.failed == {} && ns in n.records && r in n.records[ns]
    ensures var n := Run(Start(name), ops);
      KeyOfRecord(r) in n.wires && StatusOf(name, n.wires[KeyOfRecord(r)]) == r && r.topoNs == ns
  {
    StartInv(own, name);
    RunKeepsInv(own, Start(name), ops);
    NameStays(Start(name), ops);
    assert Accounted(Run(Start(name), ops), r);
  }

  lemma {:induction false} NameStays(n: Node, ops: seq<Op>)
    ensures Run(n, ops).name == n.name
  {
    if ops != [] {
      NameStays(n, ops[..|ops| - 1]);
      OpKeepsName(Run(n, ops[..|ops| - 1]), ops[|ops| - 1]);
    }
  }

  lemma OpKeepsName(n: Node, op: Op)
    ensures Do(n, op).name == n.name
  {
    match op
    case OpAddRemote(d, host, f) => AddRemoteKeepsName(n, d, host, f);
    case OpRemove(w, stuck) => RemoveKeepsName(n, w, stuck);
    case _ =>
  }

  lemma AddRemoteKeepsName(n: Node, d: WireDef, host: string, f: Faults)
    ensures AddRemote(n, d, host, f).0.name == n.name
  {
    EnsureNoStaleTouchesNoWire(n, d, f);
  }

  lemma RemoveKeepsName(n: Node, w: Wire, stuck: bool)
    ensures Remove(n, w, stuck).name == n.name
  {
  }

  // ------------------------------------------------ what operations leave alone

  predicate SameInterfaces(n: Node, m: Node) {
    m.links == n.links && m.pods == n.pods && m.nextIndex == n.nextIndex
  }

  predicate SameTable(n: Node, m: Node) {
    m.wires == n.wires && m.handles == n.handles
  }

  /** Making, updating and deleting wires leave alone what is not theirs: the interfaces,
      the table, the records, the removals under way. */
  lemma OpTouchesOnly(n: Node, op: Op)
    ensures var m := Do(n, op);
      && (!op.OpDeaf? ==> m.deaf == n.deaf)
      && (op.OpAddLocal? || op.OpWireDown? || op.OpExtract? || op.OpPurge? || op.OpDeaf? ==> SameInterfaces(n, m))
      && (op.OpAddRemote? && KeyOfDef(op.d) in n.wires ==> SameInterfaces(n, m) && m.wires.Keys == n.wires.Keys && m.handles == n.handles)
      && (op.OpMakeVeth? || op.OpRemove? || op.OpPurge? || op.OpLost? || op.OpDeaf? ==> SameTable(n, m))
      && (op.OpMakeVeth? || op.OpWireDown? || op.OpExtract? || op.OpLost? || op.OpDeaf? ==> m.records == n.records)
      && (!op.OpExtract? && !op.OpRemove? ==> m.limbo == n.limbo)
      && (!op.OpRemove? && !op.OpPurge? ==> m.failed == n.failed)
      && (!op.OpWireDown? && !op.OpRemove? ==> m.closed == n.closed)
  {
    hide AddRemote, Remove, Upsert, StatusOf, Listed, WithoutPod;
    match op
    case OpAddRemote(d, host, f) => AddRemoteTouchesOnly(n, d, host, f);
    case OpRemove(w, stuck) => RemoveTouchesOnly(n, w, stuck);
    case _ =>
  }

  lemma AddRemoteTouchesOnly(n: Node, d: WireDef, host: string, f: Faults)
    ensures var m := AddRemote(n, d, host, f).0;
      && m.deaf == n.deaf && m.limbo == n.limbo && m.failed == n.failed && m.closed == n.closed
      && (KeyOfDef(d) in n.wires ==> SameInterfaces(n, m) && m.wires.Keys == n.wires.Keys && m.handles == n.handles)
  {
    hide Recorded, Upsert, StatusOf, Listed, CreateGWire, KeyOf;
    EnsureNoStaleTouchesNoWire(n, d, f);
    assert EnsureNoStale(n, d, f).0.deaf == n.deaf;
    hide EnsureNoStale;
  }

  lemma RemoveTouchesOnly(n: Node, w: Wire, stuck: bool)
    ensures var m := Remove(n, w, stuck); SameTable(n, m) && m.deaf == n.deaf
  {
    hide WithoutLink, WithIndex;
    RemoveKeepsWires(n, w, stuck);
  }

  // --------------------------------------------------------- stop channels

  /** The channel an operation closes, if it closes one. */
  function CloseOf(n: Node, op: Op): seq<nat> {
    match op
    case OpWireDown(k) => if k in n.wires && n.wires[k].ready then [n.wires[k].stop] else []
    case OpRemove(w, _) => if w in n.limbo && w.ready then [w.stop] else []
    case _ => []
  }

  /** All closings of a run, in order. */
  function Closings(n: Node, ops: seq<Op>): seq<nat> {
    if ops == [] then []
    else Closings(n, ops[..|ops| - 1]) + CloseOf(Run(n, ops[..|ops| - 1]), ops[|ops| - 1])
  }

  lemma ClosedGrows(own: Owners, n: Node, op: Op)
    requires Inv(own, n) && Legal(own, n, op)
    ensures forall c :: c in Do(n, op).closed <==> c in n.closed || c in CloseOf(n, op)
    ensures forall c :: c in CloseOf(n, op) ==> c !in n.closed
    ensures |CloseOf(n, op)| <= 1
  {
    hide AddRemote, TableInv, RecordsInv, IndicesInv, OwnersInv;
    match op
    case OpAddRemote(d, host, f) => AddRemoteClosesNothing(n, d, host, f);
    case OpWireDown(k) =>
    case OpRemove(w, stuck) => RemoveCloses(n, w, stuck);
    case _ =>
  }

  lemma AddRemoteClosesNothing(n: Node, d: WireDef, host: string, f: Faults)
    ensures AddRemote(n, d, host, f).0.closed == n.closed
  {
    hide EnsureNoStale, Upsert, StatusOf, Listed;
    EnsureNoStaleTouchesNoWire(n, d, f);
  }

  lemma RemoveCloses(n: Node, w: Wire, stuck: bool)
    ensures Remove(n, w, stuck).closed == if w in n.limbo && w.ready then n.closed + {w.stop} else n.closed
  {
  }

  lemma {:induction false} ClosingsAreClosed(own: Owners, n: Node, ops: seq<Op>)
    requires Inv(own, n) && n.closed == {} && LegalRun(own, n, ops)
    ensures forall c :: c in Closings(n, ops) <==> c in Run(n, ops).closed
    ensures forall i, j :: 0 <= i < j < |Closings(n, ops)| ==> Closings(n, ops)[i] != Closings(n, ops)[j]
  {
    if ops != [] {
      var front := ops[..|ops| - 1];
      ClosingsAreClosed(own, n, front);
      RunKeepsInv(own, n, front);
      ClosedGrows(own, Run(n, front), ops[|ops| - 1]);
      var a, b := Closings(n, front), CloseOf(Run(n, front), ops[|ops| - 1]);
      assert forall i :: 0 <= i < |a| ==> a[i] in a;
      assert forall i :: 0 <= i < |b| ==> b[i] in b;
      assert Closings(n, ops) == a + b;
    }
  }

  /** No stop channel is closed twice, however creations, updates, wire-downs and the
      two phases of deletions interleave. */
  lemma NoChannelClosedTwice(own: Owners, name: string, ops: seq<Op>, i: nat, j: nat)
    requires LegalRun(own, Start(name), ops) && i < j < |Closings(Start(name), ops)|
    ensures Closings(Start(name), ops)[i] != Closings(Start(name), ops)[j]
  {
    StartInv(own, name);
    ClosingsAreClosed(own, Start(name), ops);
  }

  // ------------------------------------------- remote creation, fail-safe

  /** Whatever fails, a remote creation takes away at most the one interface it was
      asked to create, and that only if no wire is tracked or recorded for it. */
  lemma CleanupIsFailSafe(n: Node, d: WireDef, host: string, f: Faults, p: PodIface)
    requires p in n.pods && !(p in AddRemote(n, d, host, f).0.pods && AddRemote(n, d, host, f).0.pods[p] == n.pods[p])
    requires forall q :: q in n.pods && n.pods[q].veth && n.pods[q].hostIface == n.pods[p].hostIface ==> q == p
    ensures p == PodIface(d.netNs, d.podIface) && n.pods[p].veth
    ensures KeyOfDef(d) !in n.wires && !Recorded(n, KeyOfDef(d))
  {
    hide Recorded, Upsert, StatusOf, Listed, CreateGWire, KeyOf;
  }

  /** Nothing is in the way: the interface is not there, or it is a veth that neither the
      table nor the records know, each of which could be looked at, and it can go. */
  predicate Free(n: Node, d: WireDef, host: string, f: Faults) {
    var p := PodIface(d.netNs, d.podIface);
    if p in n.pods then
      && n.pods[p].veth && !Recorded(n, KeyOfDef(d)) && (host !in n.links || host == n.pods[p].hostIface)
      && !f.noNetNs && !f.noStore && !f.noRemove
    else host !in n.links
  }

  /** The answer of the check by itself: it lets the creation go on if the netns cannot be
      looked into, and refuses whatever it cannot tell to be a remnant. */
  lemma CheckRefusesIff(n: Node, d: WireDef, f: Faults)
    ensures !EnsureNoStale(n, d, f).1 <==>
      && !f.noNetNs && PodIface(d.netNs, d.podIface) in n.pods
      && (KeyOfDef(d) in n.wires || Recorded(n, KeyOfDef(d)) || f.noStore || f.noRemove || !n.pods[PodIface(d.netNs, d.podIface)].veth)
  {
    hide Recorded;
  }

  /** A remote creation succeeds if and only if the wire is tracked already, or nothing
      failed and nothing is in the way. In particular a store that cannot be read, a
      netns that cannot be looked into and a veth that cannot be removed refuse it, and
      whatever refuses it before the veth is made leaves the pod's interface alone; a
      failure after that leaves the new veth. */
  lemma RemoteSucceedsIff(n: Node, d: WireDef, host: string, f: Faults)
    requires IndicesInv(n)
    ensures AddRemote(n, d, host, f).1.Ok? <==>
      KeyOfDef(d) in n.wires || (!f.badCidr && !f.noVeth && !f.noLookup && !f.noOpen && Free(n, d, host, f))
    ensures var p, m := PodIface(d.netNs, d.podIface), AddRemote(n, d, host, f).0;
      p in n.pods && KeyOfDef(d) !in n.wires ==>
        (p in m.pods && m.pods[p] == n.pods[p] && m.links == n.links <==>
          f.badCidr || !n.pods[p].veth || Recorded(n, KeyOfDef(d)) || f.noNetNs || f.noStore || f.noRemove)
    ensures var p, m := PodIface(d.netNs, d.podIface), AddRemote(n, d, host, f).0;
      KeyOfDef(d) !in n.wires && !f.badCidr && !f.noVeth && Free(n, d, host, f) ==>
        p in m.pods && m.pods[p] == PodLink(true, host) && host in m.links && m.links[host] == n.nextIndex
  {
    hide Recorded, Upsert, StatusOf, Listed;
    var p, m, n1 := PodIface(d.netNs, d.podIface), AddRemote(n, d, host, f).0, EnsureNoStale(n, d, f).0;
    if KeyOfDef(d) !in n.wires && !f.badCidr && m.links != n1.links {
      assert host in m.links && m.links[host] == n.nextIndex;
      assert m.links != n.links;
    }
  }

  /** The interface of a tracked wire in the pod is the other end of its interface on
      the node. */
  predicate EndsMatch(n: Node, w: Wire) {
    var p := PodIface(w.netNs, w.podIface);
    && p in n.pods && n.pods[p] == PodLink(true, w.ifaceName) && w.ifaceName in n.links
    && forall q :: q in n.pods && n.pods[q].veth && n.pods[q].hostIface == w.ifaceName ==> q == p
  }

  /** One attempt of the peer to have this end made: what the node did since the last
      one, and what is asked for this time; the peer's interface is a new one. */
  datatype Attempt = Attempt(before: seq<Op>, d: WireDef, host: string, f: Faults)

  function AfterAttempts(n: Node, attempts: seq<Attempt>): Node {
    if attempts == [] then n
    else
      var a := attempts[|attempts| - 1];
      AddRemote(Run(AfterAttempts(n, attempts[..|attempts| - 1]), a.before), a.d, a.host, a.f).0
  }

  /** Attempts for one end, none of which succeeded; nothing else was done to it. */
  predicate AllFailed(own: Owners, n: Node, k: Key, p: PodIface, attempts: seq<Attempt>) {
    attempts == [] ||
    var a, front := attempts[|attempts| - 1], attempts[..|attempts| - 1];
    var m := AfterAttempts(n, front);
    && AllFailed(own, n, k, p, front)
    && LegalRun(own, m, a.before) && NoneConcerns(a.before, k)
    && KeyOfDef(a.d) == k && PodIface(a.d.netNs, a.d.podIface) == p && Owned(own, a.d)
    && AddRemote(Run(m, a.before), a.d, a.host, a.f).1 == Err
  }

  /** The operation concerns the wire under k itself; bringing it down does not count,
      it only stops its own captures. */
  predicate Concerns(op: Op, k: Key) {
    match op
    case OpAddLocal(d) => KeyOfDef(d) == k
    case OpAddRemote(d, _, _) => KeyOfDef(d) == k
    case OpExtract(j) => j == k
    case _ => false
  }

  predicate NoneConcerns(ops: seq<Op>, k: Key) {
    forall i :: 0 <= i < |ops| ==> !Concerns(ops[i], k)
  }

  /** Nothing stands in the way but, perhaps, the veth of an earlier attempt. */
  predicate Creatable(n: Node, k: Key, p: PodIface) {
    k !in n.wires && !Recorded(n, k) && (p in n.pods ==> n.pods[p].veth)
  }

  lemma FailureLeavesCreatable(n: Node, d: WireDef, host: string, f: Faults, p: PodIface)
    requires Creatable(n, KeyOfDef(d), p) && AddRemote(n, d, host, f).1 == Err
    ensures Creatable(AddRemote(n, d, host, f).0, KeyOfDef(d), p)
  {
    var m := AddRemote(n, d, host, f).0;
    assert m.records == n.records && m.wires == n.wires;
  }

  /** Writing another wire through records nothing under k. */
  lemma PutLeavesUnrecorded(n: Node, m: Node, w: Wire, k: Key)
    requires Put(n, m, w) && KeyOf(w) != k && !Recorded(n, k)
    ensures !Recorded(m, k)
  {
    var s := StatusOf(n.name, w);
    UpsertContents(Listed(n, w.topoNs), s);
    forall ns, i | ns in m.records && 0 <= i < |m.records[ns]| ensures KeyOfRecord(m.records[ns][i]) != k {
      var r := m.records[ns][i];
      assert r in m.records[ns];
      if r != s {
        assert r in Listed(n, ns);
        var j :| 0 <= j < |n.records[ns]| && n.records[ns][j] == r;
      }
    }
  }

  /** Fewer records, the same wires, and no interface but veths. */
  lemma LessLeavesCreatable(n: Node, m: Node, k: Key, p: PodIface)
    requires Creatable(n, k, p) && m.wires.Keys <= n.wires.Keys
    requires forall ns, r :: ns in m.records && r in m.records[ns] ==> ns in n.records && r in n.records[ns]
    requires p in m.pods ==> m.pods[p].veth
    ensures Creatable(m, k, p)
  {
    forall ns, i | ns in m.records && 0 <= i < |m.records[ns]| ensures KeyOfRecord(m.records[ns][i]) != k {
      assert m.records[ns][i] in m.records[ns];
      var j :| 0 <= j < |n.records[ns]| && n.records[ns][j] == m.records[ns][i];
    }
  }

  lemma EnsureNoStaleLeavesVeths(n: Node, d: WireDef, f: Faults, p: PodIface)
    requires p in n.pods ==> n.pods[p].veth
    ensures p in EnsureNoStale(n, d, f).0.pods ==> EnsureNoStale(n, d, f).0.pods[p].veth
  {
    hide Recorded;
  }

  lemma AddRemoteLeavesVeths(n: Node, d: WireDef, host: string, f: Faults, p: PodIface)
    requires p in n.pods ==> n.pods[p].veth
    ensures p in AddRemote(n, d, host, f).0.pods ==> AddRemote(n, d, host, f).0.pods[p].veth
  {
    hide EnsureNoStale, Upsert, StatusOf, Listed;
    EnsureNoStaleLeavesVeths(n, d, f, p);
  }

  lemma AddRemoteLeavesCreatable(own: Owners, n: Node, d: WireDef, host: string, f: Faults, k: Key, p: PodIface)
    requires TableInv(n) && OwnersInv(own, n) && Owned(own, d) && KeyOfDef(d) != k && Creatable(n, k, p)
    ensures Creatable(AddRemote(n, d, host, f).0, k, p)
  {
    AddRemoteOutcome(own, n, d, host, f);
    AddRemoteLeavesVeths(n, d, host, f, p);
    var (m, r) := AddRemote(n, d, host, f);
    if r.Ok? { PutLeavesUnrecorded(n, m, m.wires[KeyOfDef(d)], k); } else { LessLeavesCreatable(n, m, k, p); }
  }

  lemma AddLocalLeavesCreatable(n: Node, d: WireDef, k: Key, p: PodIface)
    requires KeyOfDef(d) != k && Creatable(n, k, p)
    ensures Creatable(AddLocal(n, d).0, k, p)
  {
    var m := AddLocal(n, d).0;
    if Opens(n, d.hostIface) { PutLeavesUnrecorded(n, m, m.wires[KeyOfDef(d)], k); }
  }

  lemma RemoveLeavesCreatable(n: Node, w: Wire, stuck: bool, k: Key, p: PodIface)
    requires Creatable(n, k, p)
    ensures Creatable(Remove(n, w, stuck), k, p)
  {
    hide Recorded;
    LessLeavesCreatable(n, Remove(n, w, stuck), k, p);
  }

  lemma OpLeavesCreatable(own: Owners, n: Node, op: Op, k: Key, p: PodIface)
    requires TableInv(n) && OwnersInv(own, n) && Legal(own, n, op) && !Concerns(op, k) && Creatable(n, k, p)
    ensures Creatable(Do(n, op), k, p)
  {
    hide AddRemote, AddLocal, Remove, TableInv, OwnersInv, Recorded;
    match op
    case OpAddRemote(d, host, f) => AddRemoteLeavesCreatable(own, n, d, host, f, k, p);
    case OpAddLocal(d) => AddLocalLeavesCreatable(n, d, k, p);
    case OpRemove(w, stuck) => RemoveLeavesCreatable(n, w, stuck, k, p);
    case _ => LessLeavesCreatable(n, Do(n, op), k, p);
  }

  lemma {:induction false} RunLeavesCreatable(own: Owners, n: Node, ops: seq<Op>, k: Key, p: PodIface)
    requires Inv(own, n) && LegalRun(own, n, ops) && NoneConcerns(ops, k) && Creatable(n, k, p)
    ensures Creatable(Run(n, ops), k, p)
  {
    hide Creatable, Do, Legal;
    if ops != [] {
      RunLeavesCreatable(own, n, ops[..|ops| - 1], k, p);
      RunKeepsInv(own, n, ops[..|ops| - 1]);
      OpLeavesCreatable(own, Run(n, ops[..|ops| - 1]), ops[|ops| - 1], k, p);
    }
  }

  lemma {:induction false} FailuresLeaveCreatable(own: Owners, n: Node, k: Key, p: PodIface, attempts: seq<Attempt>)
    requires Inv(own, n) && Creatable(n, k, p) && AllFailed(own, n, k, p, attempts)
    ensures Inv(own, AfterAttempts(n, attempts)) && Creatable(AfterAttempts(n, attempts), k, p)
  {
    hide Creatable, Inv;
    if attempts != [] {
      var front, a := attempts[..|attempts| - 1], attempts[|attempts| - 1];
      FailuresLeaveCreatable(own, n, k, p, front);
      var m := AfterAttempts(n, front);
      RunLeavesCreatable(own, m, a.before, k, p);
      RunKeepsInv(own, m, a.before);
      FailureLeavesCreatable(Run(m, a.before), a.d, a.host, a.f, p);
      OpKeepsInv(own, Run(m, a.before), OpAddRemote(a.d, a.host, a.f));
    }
  }

  lemma CleanAttemptCreates(n: Node, d: WireDef, host: string)
    requires Creatable(n, KeyOfDef(d), PodIface(d.netNs, d.podIface)) && host !in n.links
    ensures var (m, r) := AddRemote(n, d, host, NO_FAULTS);
      r == Ok(n.nextIndex) && KeyOfDef(d) in m.wires && m.wires[KeyOfDef(d)].ready && m.wires[KeyOfDef(d)].peerIfaceId == d.peerIfaceId
      && StatusOf(n.name, m.wires[KeyOfDef(d)]) in Listed(m, d.topoNs)
  {
    var m := AddRemote(n, d, host, NO_FAULTS).0;
    var w := m.wires[KeyOfDef(d)];
    UpsertContents(Listed(n, d.topoNs), StatusOf(n.name, w));
  }

  /** However many attempts failed between making the veth and registering the wire,
      each with a new index of the peer and anything done to other wires in between,
      the first one without a fault ends with the wire tracked, with the index of that
      attempt, and recorded. */
  lemma RetriesSucceed(own: Owners, n: Node, attempts: seq<Attempt>, d: WireDef, host: string)
    requires Inv(own, n) && Creatable(n, KeyOfDef(d), PodIface(d.netNs, d.podIface))
    requires AllFailed(own, n, KeyOfDef(d), PodIface(d.netNs, d.podIface), attempts) && host !in AfterAttempts(n, attempts).links
    ensures var (m, r) := AddRemote(AfterAttempts(n, attempts), d, host, NO_FAULTS); var k := KeyOfDef(d);
      r.Ok? && k in m.wires && m.wires[k].ready && m.wires[k].peerIfaceId == d.peerIfaceId && StatusOf(m.name, m.wires[k]) in Listed(m, d.topoNs)
  {
    hide Creatable, Inv;
    FailuresLeaveCreatable(own, n, KeyOfDef(d), PodIface(d.netNs, d.podIface), attempts);
    CleanAttemptCreates(AfterAttempts(n, attempts), d, host);
    OpKeepsName(AfterAttempts(n, attempts), OpAddRemote(d, host, NO_FAULTS));
  }
}
