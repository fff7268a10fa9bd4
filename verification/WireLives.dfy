/** Any number of restarts: what every run keeps, recovery keeps as well, exactly when
    no two recorded wires claim one interface. */
module WireLives {
  import opened WireRecords
  import opened WireNode
  import opened WireInvariants
  import opened WireRecon
  import opened WireRestart

  /** No two records of different wires name the same existing interface. */
  ghost predicate DistinctIfaces(n: Node) {
    forall d, e :: Held(n, d) && Held(n, e) && Live(n, d) && d.hostIface == e.hostIface ==> KeyOfRecord(d) == KeyOfRecord(e)
  }

  lemma {:induction false} ReconKeepsStops(n: Node, rs: seq<Record>)
    requires StopInv(n)
    ensures StopInv(ReconAll(n, rs))
  {
    if rs != [] {
      ReconKeepsStops(n, rs[..|rs| - 1]);
      ReconOneKeepsStops(ReconAll(n, rs[..|rs| - 1]), rs[|rs| - 1]);
    }
  }

  lemma ReconOneKeepsStops(m: Node, r: Record)
    requires StopInv(m)
    ensures StopInv(ReconOne(m, r))
  {
    if Live(m, r) {
      NewStopIsFine(m, KeyOfRecord(r), Revived(m, DefOf(r)));
      StopFrame(m.(wires := m.wires[KeyOfRecord(r) := Revived(m, DefOf(r))], nextStop := m.nextStop + 1), Revive(m, DefOf(r)));
    } else {
      StopFrame(m, Prune(m, r));
    }
  }

  /** What recovery says about one wire: it is some live record's. */
  lemma RecoveredFrom(n: Node, rs: seq<Record>, k: Key) returns (r: Record)
    requires HomeIn(n) && Lists(n, rs) && DistinctKeys(rs) && k in ReconAll(Restarted(n), rs).wires
    ensures Held(n, r) && Live(n, r) && KeyOfRecord(r) == k && Recovered(ReconAll(Restarted(n), rs), r)
  {
    Recovers(n, rs);
    r :| Held(n, r) && Live(n, r) && KeyOfRecord(r) == k;
  }

  lemma HeldIsOwned(own: Owners, n: Node, r: Record)
    requires RecordsInv(n) && TableInv(n) && OwnersInv(own, n) && Held(n, r)
    ensures own(r.netNs) == (r.topoNs, r.podName)
  {
    assert Accounted(n, r);
  }

  lemma RecoveredIsIndexed(own: Owners, n: Node, rs: seq<Record>, k: Key)
    requires Inv(own, n) && HomeIn(n) && Lists(n, rs) && DistinctKeys(rs) && k in ReconAll(Restarted(n), rs).wires
    ensures var m := ReconAll(Restarted(n), rs); var w := m.wires[k];
      && KeyOf(w) == k && w.ifaceId < n.nextIndex && w.ifaceId in m.handles && m.handles[w.ifaceId] == w.ifaceId
      && own(w.netNs) == (w.topoNs, w.podName)
  {
    var r := RecoveredFrom(n, rs, k);
    HeldIsOwned(own, n, r);
    Recovers(n, rs);
    IndexOf(ReconAll(Restarted(n), rs), n, r);
  }

  lemma IndexOf(m: Node, n: Node, r: Record)
    requires IndicesInv(n) && m.links == n.links && Recovered(m, r)
    ensures var w := m.wires[KeyOfRecord(r)];
      KeyOf(w) == KeyOfRecord(r) && w.topoNs == r.topoNs && w.podName == r.podName && w.ifaceId < n.nextIndex
  {
  }

  lemma RecoveredApart(n: Node, rs: seq<Record>, j: Key, k: Key)
    requires IndicesInv(n) && HomeIn(n) && Lists(n, rs) && DistinctKeys(rs) && DistinctIfaces(n) && j != k
    requires j in ReconAll(Restarted(n), rs).wires && k in ReconAll(Restarted(n), rs).wires
    ensures ReconAll(Restarted(n), rs).wires[j].ifaceId != ReconAll(Restarted(n), rs).wires[k].ifaceId
  {
    var d := RecoveredFrom(n, rs, j);
    var e := RecoveredFrom(n, rs, k);
    Recovers(n, rs);
  }

  lemma RecoveredIsRecorded(n: Node, rs: seq<Record>, ns: string, r: Record)
    requires HomeIn(n) && Lists(n, rs) && DistinctKeys(rs)
    requires ns in ReconAll(Restarted(n), rs).records && r in ReconAll(Restarted(n), rs).records[ns]
    ensures r.topoNs == ns && r.node == n.name && Accounted(ReconAll(Restarted(n), rs), r)
  {
    Recovers(n, rs);
    assert r in n.records[ns] && Held(n, r) && !Doomed(n, rs, r);
    assert Live(n, r);
    assert Recovered(ReconAll(Restarted(n), rs), r);
  }

  /** Recovery re-establishes every invariant if, and only if, the live records name
      different interfaces. */
  lemma RecoveryKeepsInvIff(own: Owners, n: Node, rs: seq<Record>)
    requires Inv(own, n) && HomeIn(n) && Lists(n, rs) && DistinctKeys(rs)
    ensures Inv(own, ReconAll(Restarted(n), rs)) <==> DistinctIfaces(n)
  {
    if DistinctIfaces(n) {
      DistinctKeepsInv(own, n, rs);
    } else {
      var d, e :| Held(n, d) && Held(n, e) && Live(n, d) && d.hostIface == e.hostIface && KeyOfRecord(d) != KeyOfRecord(e);
      SharedBreaksTable(n, rs, d, e);
    }
  }

  lemma SharedBreaksTable(n: Node, rs: seq<Record>, d: Record, e: Record)
    requires HomeIn(n) && Lists(n, rs) && DistinctKeys(rs)
    requires Held(n, d) && Held(n, e) && Live(n, d) && d.hostIface == e.hostIface && KeyOfRecord(d) != KeyOfRecord(e)
    ensures !TableInv(ReconAll(Restarted(n), rs))
  {
    Recovers(n, rs);
    var m := ReconAll(Restarted(n), rs);
    assert Recovered(m, d) && Recovered(m, e);
    var j, k := KeyOfRecord(d), KeyOfRecord(e);
    assert j in m.wires && k in m.wires && m.wires[j].ifaceId == m.wires[k].ifaceId;
  }

  lemma DistinctKeepsTable(own: Owners, n: Node, rs: seq<Record>)
    requires Inv(own, n) && HomeIn(n) && Lists(n, rs) && DistinctKeys(rs) && DistinctIfaces(n)
    ensures var m := ReconAll(Restarted(n), rs); IndicesInv(m) && TableInv(m) && OwnersInv(own, m)
  {
    Recovers(n, rs);
    var m := ReconAll(Restarted(n), rs);
    forall k | k in m.wires
      ensures KeyOf(m.wires[k]) == k && m.wires[k].ifaceId < n.nextIndex
      ensures m.wires[k].ifaceId in m.handles && m.handles[m.wires[k].ifaceId] == m.wires[k].ifaceId
      ensures own(m.wires[k].netNs) == (m.wires[k].topoNs, m.wires[k].podName)
    {
      RecoveredIsIndexed(own, n, rs, k);
    }
    forall j, k | j in m.wires && k in m.wires && j != k ensures m.wires[j].ifaceId != m.wires[k].ifaceId {
      RecoveredApart(n, rs, j, k);
    }
  }

  lemma DistinctKeepsInv(own: Owners, n: Node, rs: seq<Record>)
    requires Inv(own, n) && HomeIn(n) && Lists(n, rs) && DistinctKeys(rs) && DistinctIfaces(n)
    ensures Inv(own, ReconAll(Restarted(n), rs))
  {
    DistinctKeepsTable(own, n, rs);
    ReconKeepsStops(Restarted(n), rs);
    var m := ReconAll(Restarted(n), rs);
    Recovers(n, rs);
    forall ns, r | ns in m.records && r in m.records[ns] ensures r.topoNs == ns && r.node == m.name && Accounted(m, r) {
      RecoveredIsRecorded(n, rs, ns, r);
    }
  }

  lemma RecoveryKeepsUnique(n: Node, rs: seq<Record>)
    requires UniqueInv(n) && HomeIn(n) && Lists(n, rs) && DistinctKeys(rs)
    ensures UniqueInv(ReconAll(Restarted(n), rs))
  {
    Recovers(n, rs);
    var m := ReconAll(Restarted(n), rs);
    forall ns | ns in m.records
      ensures Homogeneous(m.records[ns], m.name, ns) && UniquePerPod(m.records[ns]) && UniquePerNetNs(m.records[ns])
    {
      FilterKeepsUnique(n.records[ns], Spared(n, rs));
    }
  }

  // ---------------------------------------------------------- names in use

  /** No two wires, recorded or tracked, go by one interface name. */
  ghost predicate NamesInv(n: Node) {
    && (forall d, e :: Held(n, d) && Held(n, e) && d.hostIface == e.hostIface ==> KeyOfRecord(d) == KeyOfRecord(e))
    && (forall e, k :: Held(n, e) && k in n.wires && e.hostIface == n.wires[k].ifaceName ==> KeyOfRecord(e) == k)
    && (forall j, k :: j in n.wires && k in n.wires && n.wires[j].ifaceName == n.wires[k].ifaceName ==> j == k)
  }

  /** The interface name is no other wire's, recorded or tracked. */
  ghost predicate OwnName(n: Node, h: string, k: Key) {
    && (forall e :: Held(n, e) && e.hostIface == h ==> KeyOfRecord(e) == k)
    && (forall j :: j in n.wires && n.wires[j].ifaceName == h ==> j == k)
  }

  /** What the generator of interface names is for: an interface that is made for a
      wire, or taken over by one, has a name of its own. */
  ghost predicate NewName(n: Node, op: Op) {
    && (op.OpAddLocal? ==> OwnName(n, op.d.hostIface, KeyOfDef(op.d)))
    && (op.OpAddRemote? && KeyOfDef(op.d) !in n.wires ==> OwnName(n, op.host, KeyOfDef(op.d)))
  }

  lemma NamesFrame(n: Node, m: Node)
    requires NamesInv(n)
    requires forall e :: Held(m, e) ==> Held(n, e)
    requires forall k :: k in m.wires ==> k in n.wires && m.wires[k].ifaceName == n.wires[k].ifaceName
    ensures NamesInv(m)
  {
  }

  lemma PutHolds(n: Node, m: Node, w: Wire, e: Record)
    requires Put(n, m, w) && Held(m, e)
    ensures Held(n, e) || e == StatusOf(n.name, w)
  {
    UpsertContents(Listed(n, w.topoNs), StatusOf(n.name, w));
  }

  lemma PutKeepsNames(n: Node, m: Node, w: Wire)
    requires NamesInv(n) && Put(n, m, w) && OwnName(n, w.ifaceName, KeyOf(w))
    ensures NamesInv(m)
  {
    forall e | Held(m, e) ensures Held(n, e) || (e.hostIface == w.ifaceName && KeyOfRecord(e) == KeyOf(w)) { PutHolds(n, m, w, e); }
  }

  lemma TrackedOwnsName(n: Node, k: Key)
    requires NamesInv(n) && k in n.wires
    ensures OwnName(n, n.wires[k].ifaceName, k)
  {
  }

  lemma AddRemoteNames(n: Node, d: WireDef, host: string, f: Faults)
    requires AddRemote(n, d, host, f).1.Ok?
    ensures var m, k := AddRemote(n, d, host, f).0, KeyOfDef(d);
      k in m.wires && m.wires[k].ifaceName == if k in n.wires then n.wires[k].ifaceName else host
  {
    hide Recorded, Upsert, StatusOf;
  }

  lemma AddRemoteKeepsNames(own: Owners, n: Node, d: WireDef, host: string, f: Faults)
    requires NamesInv(n) && TableInv(n) && OwnersInv(own, n) && Owned(own, d) && NewName(n, OpAddRemote(d, host, f))
    ensures NamesInv(AddRemote(n, d, host, f).0)
  {
    AddRemoteOutcome(own, n, d, host, f);
    var (m, r) := AddRemote(n, d, host, f);
    hide NamesInv, OwnName, TableInv, AddRemote;
    if r.Ok? {
      AddRemoteNames(n, d, host, f);
      if KeyOfDef(d) in n.wires { TrackedOwnsName(n, KeyOfDef(d)); }
      PutKeepsNames(n, m, m.wires[KeyOfDef(d)]);
    } else {
      NamesFrame(n, m);
    }
  }

  lemma AddLocalKeepsNames(n: Node, d: WireDef)
    requires NamesInv(n) && OwnName(n, d.hostIface, KeyOfDef(d))
    ensures NamesInv(AddLocal(n, d).0)
  {
    hide NamesInv, OwnName;
    AddLocalPuts(n, d);
    if Opens(n, d.hostIface) {
      AddLocalNames(n, d);
      PutKeepsNames(n, AddLocal(n, d).0, AddLocal(n, d).0.wires[KeyOfDef(d)]);
    }
  }

  lemma AddLocalNames(n: Node, d: WireDef)
    requires Opens(n, d.hostIface)
    ensures KeyOfDef(d) in AddLocal(n, d).0.wires && AddLocal(n, d).0.wires[KeyOfDef(d)].ifaceName == d.hostIface
  {
  }

  lemma RemoveKeepsNames(n: Node, w: Wire, stuck: bool)
    requires NamesInv(n)
    ensures NamesInv(Remove(n, w, stuck))
  {
    hide NamesInv;
    RemoveOutcome(n, w, stuck);
    NamesFrame(n, Remove(n, w, stuck));
  }

  lemma WireDownKeepsNames(n: Node, k: Key)
    requires NamesInv(n)
    ensures NamesInv(WireDown(n, k))
  {
    hide NamesInv;
    NamesFrame(n, WireDown(n, k));
  }

  lemma OpKeepsNames(own: Owners, n: Node, op: Op)
    requires NamesInv(n) && TableInv(n) && OwnersInv(own, n) && Legal(own, n, op) && NewName(n, op)
    ensures NamesInv(Do(n, op))
  {
    hide NamesInv, TableInv, OwnersInv, OwnName, AddRemote, AddLocal, Remove, WireDown;
    match op
    case OpAddRemote(d, host, f) => AddRemoteKeepsNames(own, n, d, host, f);
    case OpAddLocal(d) => AddLocalKeepsNames(n, d);
    case OpRemove(w, stuck) => RemoveKeepsNames(n, w, stuck);
    case OpWireDown(k) => WireDownKeepsNames(n, k);
    case _ => NamesFrame(n, Do(n, op));
  }

  ghost predicate NewNames(n: Node, ops: seq<Op>) {
    ops == [] || (NewNames(n, ops[..|ops| - 1]) && NewName(Run(n, ops[..|ops| - 1]), ops[|ops| - 1]))
  }

  lemma {:induction false} RunKeepsNames(own: Owners, n: Node, ops: seq<Op>)
    requires Inv(own, n) && NamesInv(n) && LegalRun(own, n, ops) && NewNames(n, ops)
    ensures NamesInv(Run(n, ops))
  {
    hide NamesInv, Do, Legal, NewName;
    if ops != [] {
      RunKeepsNames(own, n, ops[..|ops| - 1]);
      RunKeepsInv(own, n, ops[..|ops| - 1]);
      OpKeepsNames(own, Run(n, ops[..|ops| - 1]), ops[|ops| - 1]);
    }
  }

  lemma RecoveryKeepsNames(n: Node, rs: seq<Record>)
    requires NamesInv(n) && HomeIn(n) && Lists(n, rs) && DistinctKeys(rs)
    ensures NamesInv(ReconAll(Restarted(n), rs))
  {
    Recovers(n, rs);
    var m := ReconAll(Restarted(n), rs);
    forall e | Held(m, e) ensures Held(n, e) {}
    forall k | k in m.wires ensures exists r :: Held(n, r) && KeyOfRecord(r) == k && r.hostIface == m.wires[k].ifaceName {
      var r := RecoveredFrom(n, rs, k);
      assert StatusOf(m.name, m.wires[k]) == r;
    }
  }

  // ---------------------------------------------------------- several lives

  /** What one daemon process did, and the order in which its successor lists the
      objects. */
  datatype Span = Span(ops: seq<Op>, order: seq<string>)

  function AfterSpan(n: Node, s: Span): Node {
    ReconAll(Restarted(Run(n, s.ops)), ListAll(Run(n, s.ops), s.order))
  }

  function AfterSpans(n: Node, spans: seq<Span>): Node {
    if spans == [] then n else AfterSpan(AfterSpans(n, spans[..|spans| - 1]), spans[|spans| - 1])
  }

  ghost predicate LegalSpan(own: Owners, n: Node, s: Span) {
    LegalRun(own, n, s.ops) && NewNames(n, s.ops) && Covers(Run(n, s.ops), s.order)
  }

  ghost predicate LegalSpans(own: Owners, n: Node, spans: seq<Span>) {
    spans == [] ||
    var front := spans[..|spans| - 1];
    LegalSpans(own, n, front) && LegalSpan(own, AfterSpans(n, front), spans[|spans| - 1])
  }

  lemma NamesMakeDistinct(n: Node)
    requires NamesInv(n)
    ensures DistinctIfaces(n)
  {
  }

  lemma SpanKeepsInv(own: Owners, n: Node, s: Span)
    requires Inv(own, n) && UniqueInv(n) && NamesInv(n) && LegalSpan(own, n, s)
    ensures Inv(own, AfterSpan(n, s)) && UniqueInv(AfterSpan(n, s)) && NamesInv(AfterSpan(n, s))
  {
    hide Inv, UniqueInv, NamesInv, DistinctIfaces, LegalRun, NewNames;
    var d := Run(n, s.ops);
    RunKeepsInv(own, n, s.ops);
    RunKeepsUnique(own, n, s.ops);
    RunKeepsNames(own, n, s.ops);
    ListsAreDistinct(own, d, s.order);
    NamesMakeDistinct(d);
    DistinctKeepsInv(own, d, ListAll(d, s.order));
    RecoveryKeepsUnique(d, ListAll(d, s.order));
    RecoveryKeepsNames(d, ListAll(d, s.order));
  }

  /** A node whose interfaces get names of their own can be restarted again and again,
      at any point of any operation: it keeps one owner per index, one open channel per
      ready wire, a wire for every record, and unique records. */
  lemma {:induction false} InvSurvivesRestarts(own: Owners, name: string, spans: seq<Span>)
    requires LegalSpans(own, Start(name), spans)
    ensures var n := AfterSpans(Start(name), spans); Inv(own, n) && UniqueInv(n) && NamesInv(n)
  {
    if spans == [] {
      StartInv(own, name);
    } else {
      var front := spans[..|spans| - 1];
      InvSurvivesRestarts(own, name, front);
      hide Inv, UniqueInv, NamesInv, LegalSpan, AfterSpan;
      SpanKeepsInv(own, AfterSpans(Start(name), front), spans[|spans| - 1]);
    }
  }
}
