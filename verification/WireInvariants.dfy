/** What every operation on a node's wires keeps, in every interleaving. */
module WireInvariants {
  import opened WireRecords
  import opened WireNode

  // ------------------------------------------------------------ wire table

  /** Interface indices are distinct and older than the next one. */
  ghost predicate IndicesInv(n: Node) {
    && (forall h :: h in n.links ==> n.links[h] < n.nextIndex)
    && (forall g, h :: g in n.links && h in n.links && g != h ==> n.links[g] != n.links[h])
    && (forall k :: k in n.wires ==> n.wires[k].ifaceId < n.nextIndex)
    && (forall w :: w in n.limbo ==> w.ifaceId < n.nextIndex)
  }

  /** Each tracked wire is under its own key and has a handle under its own index;
      no two tracked wires, and no tracked and extracted wire, share an index. */
  ghost predicate TableInv(n: Node) {
    && (forall k :: k in n.wires ==> KeyOf(n.wires[k]) == k)
    && (forall k :: k in n.wires ==> n.wires[k].ifaceId in n.handles && n.handles[n.wires[k].ifaceId] == n.wires[k].ifaceId)
    && (forall j, k :: j in n.wires && k in n.wires && j != k ==> n.wires[j].ifaceId != n.wires[k].ifaceId)
    && (forall k, w :: k in n.wires && w in n.limbo ==> n.wires[k].ifaceId != w.ifaceId)
  }

  // --------------------------------------------------------- stop channels

  /** A ready wire, tracked or extracted, holds an open channel of its own. */
  ghost predicate StopInv(n: Node) {
    && (forall c :: c in n.closed ==> c < n.nextStop)
    && (forall k :: k in n.wires && n.wires[k].ready ==> n.wires[k].stop !in n.closed && n.wires[k].stop < n.nextStop)
    && (forall w :: w in n.limbo && w.ready ==> w.stop !in n.closed && w.stop < n.nextStop)
    && (forall j, k :: j in n.wires && k in n.wires && j != k && n.wires[j].ready && n.wires[k].ready ==> n.wires[j].stop != n.wires[k].stop)
    && (forall k, w :: k in n.wires && w in n.limbo && n.wires[k].ready && w.ready ==> n.wires[k].stop != w.stop)
    && (forall v, w :: v in n.limbo && w in n.limbo && v != w && v.ready && w.ready ==> v.stop != w.stop)
  }

  // --------------------------------------------------------------- records

  ghost predicate Accounted(n: Node, r: Record) {
    || (KeyOfRecord(r) in n.wires && StatusOf(n.name, n.wires[KeyOfRecord(r)]) == r)
    || (exists w :: w in n.limbo + n.failed && StatusOf(n.name, w) == r)
  }

  /** Every record is in the object of its namespace and is the status of a wire that
      is tracked under its key, or whose removal is not finished or has failed. */
  ghost predicate RecordsInv(n: Node) {
    forall ns, r :: ns in n.records && r in n.records[ns] ==> r.topoNs == ns && r.node == n.name && Accounted(n, r)
  }

  ghost predicate OwnersInv(own: Owners, n: Node) {
    && (forall k :: k in n.wires ==> own(n.wires[k].netNs) == (n.wires[k].topoNs, n.wires[k].podName))
    && (forall w :: w in n.limbo + n.failed ==> own(w.netNs) == (w.topoNs, w.podName))
  }

  ghost predicate Inv(own: Owners, n: Node) {
    IndicesInv(n) && TableInv(n) && StopInv(n) && RecordsInv(n) && OwnersInv(own, n)
  }

  lemma StartInv(own: Owners, name: string)
    ensures Inv(own, Start(name))
  {
  }

  // ----------------------------------------------------- indices and table

  /** The table invariants survive anything that leaves the table alone, adds no
      interface and only finishes extracted wires. */
  lemma TableFrame(n: Node, m: Node)
    requires IndicesInv(n) && TableInv(n)
    requires m.wires == n.wires && m.handles == n.handles && m.nextIndex == n.nextIndex && m.limbo <= n.limbo
    requires forall h :: h in m.links ==> h in n.links && m.links[h] == n.links[h]
    ensures IndicesInv(m) && TableInv(m)
  {
  }

  ghost predicate FreshIndex(n: Node, k: Key, id: int) {
    && id < n.nextIndex
    && (forall j :: j in n.wires && j != k ==> n.wires[j].ifaceId != id)
    && (forall w :: w in n.limbo ==> w.ifaceId != id)
  }

  lemma AdoptKeepsIndices(n: Node, w: Wire)
    requires IndicesInv(n) && FreshIndex(n, KeyOf(w), w.ifaceId)
    ensures IndicesInv(Adopt(n, w))
  {
    hide Upsert, StatusOf, Listed;
  }

  lemma AdoptKeepsTable(n: Node, w: Wire)
    requires IndicesInv(n) && TableInv(n) && FreshIndex(n, KeyOf(w), w.ifaceId)
    ensures IndicesInv(Adopt(n, w)) && TableInv(Adopt(n, w))
  {
    hide Upsert, StatusOf, Listed, IndicesInv;
    AdoptKeepsIndices(n, w);
  }

  lemma MakeVethKeepsTable(n: Node, p: PodIface, host: string)
    requires IndicesInv(n) && TableInv(n) && p !in n.pods && host !in n.links
    ensures IndicesInv(MakeVeth(n, p, host)) && TableInv(MakeVeth(n, p, host))
    ensures forall k :: FreshIndex(MakeVeth(n, p, host), k, n.nextIndex)
  {
  }

  lemma UpdateWireKeepsTable(n: Node, k: Key, peerIfaceId: int)
    requires IndicesInv(n) && TableInv(n) && k in n.wires
    ensures IndicesInv(UpdateWire(n, k, peerIfaceId)) && TableInv(UpdateWire(n, k, peerIfaceId))
  {
  }

  lemma EnsureNoStaleKeepsTable(n: Node, d: WireDef, f: Faults)
    requires IndicesInv(n) && TableInv(n)
    ensures IndicesInv(EnsureNoStale(n, d, f).0) && TableInv(EnsureNoStale(n, d, f).0)
  {
    TableFrame(n, EnsureNoStale(n, d, f).0);
  }

  lemma AddRemoteKeepsTable(n: Node, d: WireDef, host: string, f: Faults)
    requires IndicesInv(n) && TableInv(n)
    ensures IndicesInv(AddRemote(n, d, host, f).0) && TableInv(AddRemote(n, d, host, f).0)
  {
    var p := PodIface(d.netNs, d.podIface);
    var n1 := EnsureNoStale(n, d, f).0;
    EnsureNoStaleKeepsTable(n, d, f);
    if KeyOfDef(d) in n.wires {
      UpdateWireKeepsTable(n, KeyOfDef(d), d.peerIfaceId);
    } else if p !in n1.pods && host !in n1.links {
      MakeVethKeepsTable(n1, p, host);
      var m := MakeVeth(n1, p, host);
      assert FreshIndex(m, KeyOfDef(d), n1.nextIndex);
      AdoptKeepsTable(m, CreateGWire(n1.nextIndex, host, m.nextStop, d));
    }
  }

  lemma AddLocalKeepsTable(n: Node, d: WireDef)
    requires IndicesInv(n) && TableInv(n) && FreshFor(n, d)
    ensures IndicesInv(AddLocal(n, d).0) && TableInv(AddLocal(n, d).0)
  {
    if Opens(n, d.hostIface) {
      AdoptKeepsTable(n, CreateGWire(n.links[d.hostIface], d.hostIface, n.nextStop, d).(originator := HostCreated, originatorIp := "unknown"));
    }
  }

  lemma ExtractKeepsTable(n: Node, k: Key)
    requires IndicesInv(n) && TableInv(n)
    ensures IndicesInv(Extract(n, k)) && TableInv(Extract(n, k))
  {
  }

  lemma WireDownKeepsTable(n: Node, k: Key)
    requires IndicesInv(n) && TableInv(n)
    ensures IndicesInv(WireDown(n, k)) && TableInv(WireDown(n, k))
  {
  }

  lemma DropShrinks(n: Node, gone: set<string>)
    ensures forall h :: h in Drop(n, gone).links ==> h in n.links && Drop(n, gone).links[h] == n.links[h]
  {
  }

  lemma RemoveKeepsWires(n: Node, w: Wire, stuck: bool)
    ensures var m := Remove(n, w, stuck);
      m.wires == n.wires && m.handles == n.handles && m.nextIndex == n.nextIndex && m.limbo <= n.limbo
  {
    hide WithoutLink, WithIndex;
  }

  lemma RemoveShrinks(n: Node, w: Wire, stuck: bool)
    ensures var m := Remove(n, w, stuck);
      m.wires == n.wires && m.handles == n.handles && m.nextIndex == n.nextIndex && m.limbo <= n.limbo
    ensures Remove(n, w, stuck).links == n.links || Remove(n, w, stuck).links == Drop(n, WithIndex(n, w.ifaceId)).links
  {
    hide WithoutLink, WithIndex;
    RemoveKeepsWires(n, w, stuck);
  }

  lemma RemoveKeepsTable(n: Node, w: Wire, stuck: bool)
    requires IndicesInv(n) && TableInv(n)
    ensures IndicesInv(Remove(n, w, stuck)) && TableInv(Remove(n, w, stuck))
  {
    RemoveShrinks(n, w, stuck);
    DropShrinks(n, WithIndex(n, w.ifaceId));
    TableFrame(n, Remove(n, w, stuck));
  }

  lemma PurgeKeepsTable(n: Node, topoNs: string, podName: string)
    requires IndicesInv(n) && TableInv(n)
    ensures IndicesInv(Purge(n, topoNs, podName)) && TableInv(Purge(n, topoNs, podName))
  {
    TableFrame(n, Purge(n, topoNs, podName));
  }

  lemma OpKeepsTable(own: Owners, n: Node, op: Op)
    requires IndicesInv(n) && TableInv(n) && Legal(own, n, op)
    ensures IndicesInv(Do(n, op)) && TableInv(Do(n, op))
  {
    match op
    case OpMakeVeth(p, host) => if p !in n.pods && host !in n.links { MakeVethKeepsTable(n, p, host); }
    case OpAddRemote(d, host, f) => AddRemoteKeepsTable(n, d, host, f);
    case OpAddLocal(d) => AddLocalKeepsTable(n, d);
    case OpWireDown(k) => WireDownKeepsTable(n, k);
    case OpExtract(k) => ExtractKeepsTable(n, k);
    case OpRemove(w, stuck) => RemoveKeepsTable(n, w, stuck);
    case OpPurge(ns, pod) => PurgeKeepsTable(n, ns, pod);
    case OpLost(gone) => TableFrame(n, Drop(n, gone));
    case OpDeaf(_) => TableFrame(n, Do(n, op));
  }

  // --------------------------------------------------------- stop channels

  lemma StopFrame(n: Node, m: Node)
    requires StopInv(n) && m.wires == n.wires && m.closed == n.closed && m.limbo == n.limbo && m.nextStop == n.nextStop
    ensures StopInv(m)
  {
  }

  /** A wire that starts on a fresh channel. */
  lemma NewStopIsFine(n: Node, k: Key, w: Wire)
    requires StopInv(n) && w.stop == n.nextStop
    ensures StopInv(n.(wires := n.wires[k := w], nextStop := n.nextStop + 1))
  {
  }

  /** m differs from n in nothing that a wire operation may not touch. */
  ghost predicate SameElse(n: Node, m: Node) {
    m.name == n.name && m.closed == n.closed && m.limbo == n.limbo && m.failed == n.failed
  }

  /** The table and the records are as they were. */
  ghost predicate NoWire(n: Node, m: Node) {
    SameElse(n, m) && m.wires == n.wires && m.handles == n.handles && m.records == n.records && m.nextStop == n.nextStop
  }

  /** w was put under its key on a fresh channel and written through. */
  ghost predicate Put(n: Node, m: Node, w: Wire) {
    && SameElse(n, m) && m.wires == n.wires[KeyOf(w) := w] && m.nextStop == n.nextStop + 1
    && w.stop == n.nextStop && w.ready
    && m.records == n.records[w.topoNs := Upsert(Listed(n, w.topoNs), StatusOf(n.name, w))]
  }

  lemma UpdateWirePuts(n: Node, k: Key, peerIfaceId: int)
    requires TableInv(n) && k in n.wires
    ensures var m := UpdateWire(n, k, peerIfaceId); k in m.wires && KeyOf(m.wires[k]) == k && Put(n, m, m.wires[k])
    ensures UpdateWire(n, k, peerIfaceId).wires[k].netNs == n.wires[k].netNs
    ensures UpdateWire(n, k, peerIfaceId).wires[k].topoNs == n.wires[k].topoNs && UpdateWire(n, k, peerIfaceId).wires[k].podName == n.wires[k].podName
  {
  }

  lemma EnsureNoStaleTouchesNoWire(n: Node, d: WireDef, f: Faults)
    ensures NoWire(n, EnsureNoStale(n, d, f).0)
  {
  }

  /** Either nothing happened to the wires, or the one asked for is in place. */
  lemma AddRemoteOutcome(own: Owners, n: Node, d: WireDef, host: string, f: Faults)
    requires TableInv(n) && OwnersInv(own, n) && Owned(own, d)
    ensures var (m, r) := AddRemote(n, d, host, f);
      var k := KeyOfDef(d);
      if r.Ok? then k in m.wires && Put(n, m, m.wires[k]) && KeyOf(m.wires[k]) == k && own(m.wires[k].netNs) == (m.wires[k].topoNs, m.wires[k].podName)
      else NoWire(n, m)
  {
    if KeyOfDef(d) in n.wires {
      UpdateWirePuts(n, KeyOfDef(d), d.peerIfaceId);
    } else {
      EnsureNoStaleTouchesNoWire(n, d, f);
    }
  }

  lemma PutKeepsStops(n: Node, m: Node, w: Wire)
    requires StopInv(n) && Put(n, m, w)
    ensures StopInv(m)
  {
    NewStopIsFine(n, KeyOf(w), w);
    StopFrame(n.(wires := n.wires[KeyOf(w) := w], nextStop := n.nextStop + 1), m);
  }

  lemma AddRemoteKeepsStops(own: Owners, n: Node, d: WireDef, host: string, f: Faults)
    requires StopInv(n) && TableInv(n) && OwnersInv(own, n) && Owned(own, d)
    ensures StopInv(AddRemote(n, d, host, f).0)
  {
    AddRemoteOutcome(own, n, d, host, f);
    var (m, r) := AddRemote(n, d, host, f);
    if r.Ok? { PutKeepsStops(n, m, m.wires[KeyOfDef(d)]); } else { StopFrame(n, m); }
  }

  lemma AddLocalKeepsStops(n: Node, d: WireDef)
    requires StopInv(n)
    ensures StopInv(AddLocal(n, d).0)
  {
    var m := AddLocal(n, d).0;
    if Opens(n, d.hostIface) {
      PutKeepsStops(n, m, m.wires[KeyOfDef(d)]);
    }
  }

  lemma WireDownKeepsStops(n: Node, k: Key)
    requires StopInv(n)
    ensures StopInv(WireDown(n, k))
  {
  }

  lemma ExtractKeepsStops(n: Node, k: Key)
    requires StopInv(n)
    ensures StopInv(Extract(n, k))
  {
  }

  lemma CloseKeepsStops(n: Node, w: Wire)
    requires StopInv(n) && w in n.limbo
    ensures StopInv(n.(limbo := n.limbo - {w}, closed := if w.ready then n.closed + {w.stop} else n.closed))
  {
  }

  lemma RemoveKeepsStops(n: Node, w: Wire, stuck: bool)
    requires StopInv(n) && w in n.limbo
    ensures StopInv(Remove(n, w, stuck))
  {
    hide StopInv;
    CloseKeepsStops(n, w);
    StopFrame(n.(limbo := n.limbo - {w}, closed := if w.ready then n.closed + {w.stop} else n.closed), Remove(n, w, stuck));
  }

  lemma OpKeepsStops(own: Owners, n: Node, op: Op)
    requires StopInv(n) && TableInv(n) && OwnersInv(own, n) && Legal(own, n, op)
    ensures StopInv(Do(n, op))
  {
    hide StopInv, TableInv, OwnersInv, AddRemote, AddLocal;
    match op
    case OpMakeVeth(p, host) => StopFrame(n, Do(n, op));
    case OpAddRemote(d, host, f) => AddRemoteKeepsStops(own, n, d, host, f);
    case OpAddLocal(d) => AddLocalKeepsStops(n, d);
    case OpWireDown(k) => WireDownKeepsStops(n, k);
    case OpExtract(k) => ExtractKeepsStops(n, k);
    case OpRemove(w, stuck) => if w in n.limbo { RemoveKeepsStops(n, w, stuck); }
    case OpPurge(ns, pod) => StopFrame(n, Purge(n, ns, pod));
    case OpLost(gone) => StopFrame(n, Drop(n, gone));
    case OpDeaf(_) => StopFrame(n, Do(n, op));
  }

  // --------------------------------------------------------------- records

  /** What an operation must keep for the records not to lose their wires. */
  lemma RecordsFrame(n: Node, m: Node)
    requires RecordsInv(n) && m.name == n.name
    requires forall ns, r :: ns in m.records && r in m.records[ns] ==> ns in n.records && r in n.records[ns]
    requires forall k :: k in n.wires ==> k in m.wires && StatusOf(n.name, m.wires[k]) == StatusOf(n.name, n.wires[k])
    requires n.limbo + n.failed <= m.limbo + m.failed
    ensures RecordsInv(m)
  {
    forall ns, r | ns in m.records && r in m.records[ns] ensures r.topoNs == ns && r.node == m.name && Accounted(m, r) {
      assert Accounted(n, r);
    }
  }

  lemma SameKeySameNamespace(own: Owners, n: Node, r: Record, w: Wire)
    requires OwnersInv(own, n) && TableInv(n) && Accounted(n, r) && own(w.netNs) == (w.topoNs, w.podName)
    requires KeyOfRecord(r) == KeyOf(w)
    ensures r.topoNs == w.topoNs && r.podName == w.podName && r.node == n.name
  {
  }

  /** Writing a wire through: afterwards its status is the only record under its key. */
  lemma PutKeepsRecords(own: Owners, n: Node, m: Node, w: Wire)
    requires RecordsInv(n) && OwnersInv(own, n) && TableInv(n) && own(w.netNs) == (w.topoNs, w.podName)
    requires Put(n, m, w)
    ensures RecordsInv(m) && OwnersInv(own, m)
  {
    var s := StatusOf(n.name, w);
    UpsertContents(Listed(n, w.topoNs), s);
    forall ns, r | ns in m.records && r in m.records[ns]
      ensures r.topoNs == ns && r.node == n.name && Accounted(m, r)
    {
      if r != s {
        assert ns in n.records && r in n.records[ns] && Accounted(n, r);
        if KeyOfRecord(r) == KeyOf(w) {
          SameKeySameNamespace(own, n, r, w);
        }
      }
    }
  }

  lemma AddRemoteKeepsRecords(own: Owners, n: Node, d: WireDef, host: string, f: Faults)
    requires RecordsInv(n) && OwnersInv(own, n) && TableInv(n) && Owned(own, d)
    ensures RecordsInv(AddRemote(n, d, host, f).0) && OwnersInv(own, AddRemote(n, d, host, f).0)
  {
    AddRemoteOutcome(own, n, d, host, f);
    var (m, r) := AddRemote(n, d, host, f);
    if r.Ok? {
      PutKeepsRecords(own, n, m, m.wires[KeyOfDef(d)]);
    } else {
      RecordsFrame(n, m);
    }
  }

  lemma AddLocalKeepsRecords(own: Owners, n: Node, d: WireDef)
    requires RecordsInv(n) && OwnersInv(own, n) && TableInv(n) && Owned(own, d)
    ensures RecordsInv(AddLocal(n, d).0) && OwnersInv(own, AddLocal(n, d).0)
  {
    var m := AddLocal(n, d).0;
    if Opens(n, d.hostIface) {
      PutKeepsRecords(own, n, m, m.wires[KeyOfDef(d)]);
    }
  }

  lemma ExtractKeepsRecords(own: Owners, n: Node, k: Key)
    requires RecordsInv(n) && OwnersInv(own, n) && TableInv(n)
    ensures RecordsInv(Extract(n, k)) && OwnersInv(own, Extract(n, k))
  {
    var m := Extract(n, k);
    forall ns, r | ns in m.records && r in m.records[ns] ensures r.topoNs == ns && r.node == m.name && Accounted(m, r) {
      assert Accounted(n, r);
      if k in n.wires && KeyOfRecord(r) == k && StatusOf(n.name, n.wires[k]) == r {
        assert n.wires[k] in m.limbo + m.failed;
      } else if w :| w in n.limbo + n.failed && StatusOf(n.name, w) == r {
        assert w in m.limbo + m.failed;
      }
    }
  }

  lemma RemoveKeepsOwners(own: Owners, n: Node, w: Wire, stuck: bool)
    requires OwnersInv(own, n) && w in n.limbo
    ensures OwnersInv(own, Remove(n, w, stuck))
  {
    hide WithIndex, WithoutLink;
  }

  lemma RemoveAccounts(n: Node, w: Wire, stuck: bool, ns: string, r: Record)
    requires RecordsInv(n) && w in n.limbo && ns in Remove(n, w, stuck).records && r in Remove(n, w, stuck).records[ns]
    ensures r.topoNs == ns && r.node == n.name && Accounted(Remove(n, w, stuck), r)
  {
    hide WithIndex;
    var m := Remove(n, w, stuck);
    assert ns in n.records && r in n.records[ns] && Accounted(n, r);
    if v :| v in n.limbo + n.failed && StatusOf(n.name, v) == r {
      var v' := if v == w && w !in n.failed then w.(ready := false) else v;
      assert StatusOf(n.name, v') == r;
      assert v' in m.limbo + m.failed;
    }
  }

  lemma RemoveKeepsRecords(own: Owners, n: Node, w: Wire, stuck: bool)
    requires RecordsInv(n) && OwnersInv(own, n) && w in n.limbo
    ensures RecordsInv(Remove(n, w, stuck)) && OwnersInv(own, Remove(n, w, stuck))
  {
    hide WithIndex, WithoutLink, OwnersInv, Accounted;
    RemoveKeepsOwners(own, n, w, stuck);
    var m := Remove(n, w, stuck);
    forall ns, r | ns in m.records && r in m.records[ns] ensures r.topoNs == ns && r.node == m.name && Accounted(m, r) {
      RemoveAccounts(n, w, stuck, ns, r);
    }
  }

  lemma PurgeLeaves(n: Node, topoNs: string, podName: string, ns: string, r: Record)
    requires RecordsInv(n) && ns in Purge(n, topoNs, podName).records && r in Purge(n, topoNs, podName).records[ns]
    ensures ns in n.records && r in n.records[ns] && !(r.topoNs == topoNs && r.podName == podName)
  {
  }

  lemma PurgeAccounts(n: Node, topoNs: string, podName: string, r: Record)
    requires Accounted(n, r) && !(r.topoNs == topoNs && r.podName == podName)
    ensures Accounted(Purge(n, topoNs, podName), r)
  {
    hide WithoutPod;
    var m := Purge(n, topoNs, podName);
    if v :| v in n.limbo + n.failed && StatusOf(n.name, v) == r {
      assert v in m.limbo + m.failed;
    }
  }

  lemma PurgeKeepsOwners(own: Owners, n: Node, topoNs: string, podName: string)
    requires OwnersInv(own, n)
    ensures OwnersInv(own, Purge(n, topoNs, podName))
  {
  }

  lemma PurgeKeepsRecords(n: Node, topoNs: string, podName: string)
    requires RecordsInv(n)
    ensures RecordsInv(Purge(n, topoNs, podName))
  {
    var m := Purge(n, topoNs, podName);
    forall ns, r | ns in m.records && r in m.records[ns] ensures r.topoNs == ns && r.node == m.name && Accounted(m, r) {
      PurgeLeaves(n, topoNs, podName, ns, r);
      PurgeAccounts(n, topoNs, podName, r);
    }
  }

  lemma WireDownKeepsOwners(own: Owners, n: Node, k: Key)
    requires OwnersInv(own, n)
    ensures OwnersInv(own, WireDown(n, k))
  {
  }

  lemma WireDownKeepsRecords(own: Owners, n: Node, k: Key)
    requires RecordsInv(n) && OwnersInv(own, n)
    ensures RecordsInv(WireDown(n, k)) && OwnersInv(own, WireDown(n, k))
  {
    hide RecordsInv, OwnersInv;
    RecordsFrame(n, WireDown(n, k));
    WireDownKeepsOwners(own, n, k);
  }

  lemma OpKeepsRecords(own: Owners, n: Node, op: Op)
    requires RecordsInv(n) && OwnersInv(own, n) && TableInv(n) && Legal(own, n, op)
    ensures RecordsInv(Do(n, op)) && OwnersInv(own, Do(n, op))
  {
    match op
    case OpMakeVeth(p, host) => RecordsFrame(n, Do(n, op));
    case OpAddRemote(d, host, f) => AddRemoteKeepsRecords(own, n, d, host, f);
    case OpAddLocal(d) => AddLocalKeepsRecords(own, n, d);
    case OpWireDown(k) => WireDownKeepsRecords(own, n, k);
    case OpExtract(k) => ExtractKeepsRecords(own, n, k);
    case OpRemove(w, stuck) => if w in n.limbo { RemoveKeepsRecords(own, n, w, stuck); }
    case OpPurge(ns, pod) => PurgeKeepsRecords(n, ns, pod); PurgeKeepsOwners(own, n, ns, pod);
    case OpLost(gone) => RecordsFrame(n, Drop(n, gone));
    case OpDeaf(_) => RecordsFrame(n, Do(n, op));
  }

  // ------------------------------------------------------------------ runs

  lemma OneMoreOp(own: Owners, n: Node, front: seq<Op>, a: Op)
    requires LegalRun(own, n, front) && Legal(own, Run(n, front), a)
    ensures Run(n, front + [a]) == Do(Run(n, front), a) && LegalRun(own, n, front + [a])
  {
    assert (front + [a])[..|front|] == front;
  }

  lemma OpKeepsInv(own: Owners, n: Node, op: Op)
    requires Inv(own, n) && Legal(own, n, op)
    ensures Inv(own, Do(n, op))
  {
    hide IndicesInv, TableInv, StopInv, RecordsInv, OwnersInv, Do, Legal;
    OpKeepsTable(own, n, op);
    OpKeepsStops(own, n, op);
    OpKeepsRecords(own, n, op);
  }

  lemma {:induction false} RunKeepsInv(own: Owners, n: Node, ops: seq<Op>)
    requires Inv(own, n) && LegalRun(own, n, ops)
    ensures Inv(own, Run(n, ops))
  {
    hide Inv, Do, Legal;
    if ops != [] {
      var m, op := Run(n, ops[..|ops| - 1]), ops[|ops| - 1];
      RunKeepsInv(own, n, ops[..|ops| - 1]);
      OpKeepsInv(own, m, op);
    }
  }
}
