/** A link outlives restarts: both daemons may be restarted any number of times, and
    frames still cross. */
module HandshakeLives {
  import opened WireRecords
  import opened WireNode
  import opened WireInvariants
  import opened WireTheorems
  import opened WireRecon
  import opened WireRestart
  import opened WireLives
  import opened Handshake

  /** Nothing on the node, tracked, recorded or being removed, is of the link ns, k.uid
      except the end under k. */
  ghost predicate SoleEnd(n: Node, ns: string, k: Key) {
    && (forall j :: j in n.wires && n.wires[j].topoNs == ns && n.wires[j].uid == k.uid ==> j == k)
    && (forall w :: w in n.limbo ==> !(w.topoNs == ns && w.uid == k.uid))
    && (forall r :: Held(n, r) && r.topoNs == ns && r.linkId == k.uid ==> KeyOfRecord(r) == k)
  }

  /** The end under k is tracked, recorded, and the only one of its link here. */
  ghost predicate Sound(n: Node, k: Key) {
    k in n.wires && Held(n, StatusOf(n.name, n.wires[k])) && SoleEnd(n, n.wires[k].topoNs, k)
  }

  /** The operation does not make, take out or purge the end w under k, and makes no
      other end of its link on this node. */
  predicate Elsewhere(op: Op, k: Key, w: Wire) {
    match op
    case OpAddLocal(d) => KeyOfDef(d) != k && !(d.topoNs == w.topoNs && d.uid == k.uid)
    case OpAddRemote(d, _, _) => KeyOfDef(d) != k && !(d.topoNs == w.topoNs && d.uid == k.uid)
    case OpExtract(j) => j != k
    case OpPurge(ns, pod) => !(ns == w.topoNs && pod == w.podName)
    case _ => true
  }

  predicate AllElsewhere(ops: seq<Op>, k: Key, w: Wire) {
    forall i :: 0 <= i < |ops| ==> Elsewhere(ops[i], k, w)
  }

  /** v is w, up to what a restart or a WireDown changes. */
  predicate SameWire(name: string, v: Wire, w: Wire) {
    StatusOf(name, v) == StatusOf(name, w) && v.ifaceId == w.ifaceId
  }

  /** The end is sound and still what it was. */
  ghost predicate Keeps(n: Node, k: Key, w: Wire) {
    Sound(n, k) && SameWire(n.name, n.wires[k], w)
  }

  // ------------------------------------------------------------ within one life

  lemma PutKeeps(n: Node, m: Node, v: Wire, k: Key, w: Wire)
    requires Keeps(n, k, w) && Put(n, m, v) && KeyOf(v) != k && !(v.topoNs == w.topoNs && v.uid == k.uid) && TableInv(n)
    ensures Keeps(m, k, w)
  {
    var s, r := StatusOf(n.name, v), StatusOf(n.name, n.wires[k]);
    UpsertContents(Listed(n, v.topoNs), s);
    assert Unrelated(r, s) || r.topoNs != v.topoNs;
    assert Held(m, r);
    forall e | Held(m, e) ensures Held(n, e) || e == s { PutHolds(n, m, v, e); }
  }

  lemma AddRemoteKeeps(own: Owners, n: Node, d: WireDef, host: string, f: Faults, k: Key, w: Wire)
    requires TableInv(n) && OwnersInv(own, n) && Owned(own, d) && Keeps(n, k, w) && Elsewhere(OpAddRemote(d, host, f), k, w)
    ensures Keeps(AddRemote(n, d, host, f).0, k, w)
  {
    AddRemoteOutcome(own, n, d, host, f);
    var (m, r) := AddRemote(n, d, host, f);
    hide AddRemote;
    if r.Ok? {
      var v := m.wires[KeyOfDef(d)];
      assert v.netNs == d.netNs && v.topoNs == d.topoNs && v.uid == d.uid;
      PutKeeps(n, m, v, k, w);
    } else {
      KeepsFrame(n, m, k, w);
    }
  }

  lemma AddLocalKeeps(n: Node, d: WireDef, k: Key, w: Wire)
    requires TableInv(n) && Keeps(n, k, w) && Elsewhere(OpAddLocal(d), k, w)
    ensures Keeps(AddLocal(n, d).0, k, w)
  {
    AddLocalPuts(n, d);
    hide AddLocal, Keeps;
    if Opens(n, d.hostIface) { PutKeeps(n, AddLocal(n, d).0, AddLocal(n, d).0.wires[KeyOfDef(d)], k, w); }
  }

  lemma KeepsFrame(n: Node, m: Node, k: Key, w: Wire)
    requires Keeps(n, k, w) && m.name == n.name && k in m.wires && SameWire(n.name, m.wires[k], n.wires[k])
    requires forall r :: Held(m, r) ==> Held(n, r)
    requires Held(m, StatusOf(n.name, n.wires[k]))
    requires forall j :: j in m.wires ==> j in n.wires && m.wires[j].topoNs == n.wires[j].topoNs && m.wires[j].uid == n.wires[j].uid
    requires forall v :: v in m.limbo ==> v in n.limbo || exists j :: j in n.wires && j != k && n.wires[j] == v
    ensures Keeps(m, k, w)
  {
  }

  lemma RemoveKeeps(n: Node, v: Wire, stuck: bool, k: Key, w: Wire)
    requires TableInv(n) && Keeps(n, k, w)
    ensures Keeps(Remove(n, v, stuck), k, w)
  {
    if v in n.limbo {
      RemoveOutcome(n, v, stuck);
      var m, r := Remove(n, v, stuck), StatusOf(n.name, n.wires[k]);
      hide Remove;
      assert KeyOf(n.wires[k]) == k && Held(m, r);
      KeepsFrame(n, m, k, w);
    }
  }

  lemma PurgeKeeps(n: Node, ns: string, pod: string, k: Key, w: Wire)
    requires Keeps(n, k, w) && Elsewhere(OpPurge(ns, pod), k, w)
    ensures Keeps(Purge(n, ns, pod), k, w)
  {
    var m, r := Purge(n, ns, pod), StatusOf(n.name, n.wires[k]);
    assert Held(m, r) && m.wires == n.wires && m.limbo == n.limbo;
    hide Purge;
    KeepsFrame(n, m, k, w);
  }

  lemma WireDownKeeps(n: Node, j: Key, k: Key, w: Wire)
    requires TableInv(n) && Keeps(n, k, w)
    ensures Keeps(WireDown(n, j), k, w)
  {
    hide Keeps;
    KeepsHas(n, k, w);
    KeepsFrame(n, WireDown(n, j), k, w);
  }

  lemma ExtractKeeps(n: Node, j: Key, k: Key, w: Wire)
    requires TableInv(n) && Keeps(n, k, w) && j != k
    ensures Keeps(Extract(n, j), k, w)
  {
    hide Keeps;
    KeepsHas(n, k, w);
    KeepsFrame(n, Extract(n, j), k, w);
  }

  lemma LinkOpKeeps(n: Node, op: Op, k: Key, w: Wire)
    requires Keeps(n, k, w) && (op.OpMakeVeth? || op.OpLost? || op.OpDeaf?)
    ensures Keeps(Do(n, op), k, w)
  {
    hide AddRemote, AddLocal, Remove, Purge, WireDown, Extract, Keeps;
    KeepsHas(n, k, w);
    KeepsFrame(n, Do(n, op), k, w);
  }

  lemma KeepsHas(n: Node, k: Key, w: Wire)
    requires Keeps(n, k, w)
    ensures k in n.wires && Held(n, StatusOf(n.name, n.wires[k]))
  {
  }

  lemma OpKeepsEnd(own: Owners, n: Node, op: Op, k: Key, w: Wire)
    requires TableInv(n) && OwnersInv(own, n) && Legal(own, n, op) && Keeps(n, k, w) && Elsewhere(op, k, w)
    ensures Keeps(Do(n, op), k, w)
  {
    hide AddRemote, AddLocal, Remove, Purge, WireDown, Extract, Keeps, TableInv, OwnersInv;
    match op
    case OpAddRemote(d, host, f) => AddRemoteKeeps(own, n, d, host, f, k, w);
    case OpAddLocal(d) => AddLocalKeeps(n, d, k, w);
    case OpRemove(v, stuck) => RemoveKeeps(n, v, stuck, k, w);
    case OpPurge(ns, pod) => PurgeKeeps(n, ns, pod, k, w);
    case OpWireDown(j) => WireDownKeeps(n, j, k, w);
    case OpExtract(j) => ExtractKeeps(n, j, k, w);
    case _ => LinkOpKeeps(n, op, k, w);
  }

  lemma {:induction false} RunKeepsEnd(own: Owners, n: Node, ops: seq<Op>, k: Key, w: Wire)
    requires Inv(own, n) && LegalRun(own, n, ops) && Keeps(n, k, w) && AllElsewhere(ops, k, w)
    ensures Keeps(Run(n, ops), k, w)
  {
    hide Keeps, Elsewhere, Do, Legal;
    if ops != [] {
      var front := ops[..|ops| - 1];
      RunKeepsEnd(own, n, front, k, w);
      RunKeepsInv(own, n, front);
      OpKeepsEnd(own, Run(n, front), ops[|ops| - 1], k, w);
    }
  }

  // ----------------------------------------------------------------- a restart

  lemma SameKeySameRecord(rs: seq<Record>, r: Record, e: Record)
    requires DistinctKeys(rs) && r in rs && e in rs && KeyOfRecord(r) == KeyOfRecord(e)
    ensures e == r
  {
  }

  lemma SoleIsSpared(n: Node, rs: seq<Record>, k: Key, r: Record)
    requires Lists(n, rs) && DistinctKeys(rs) && Held(n, r) && Live(n, r) && KeyOfRecord(r) == k && SoleEnd(n, r.topoNs, k)
    ensures Spared(n, rs)(r)
  {
    forall e | e in rs && e.linkId == r.linkId && e.topoNs == r.topoNs ensures Live(n, e) {
      assert Held(n, e) && r in rs;
      SameKeySameRecord(rs, r, e);
    }
  }

  lemma SoleSurvives(n: Node, rs: seq<Record>, ns: string, k: Key)
    requires HomeIn(n) && Lists(n, rs) && DistinctKeys(rs) && SoleEnd(n, ns, k)
    ensures SoleEnd(ReconAll(Restarted(n), rs), ns, k)
  {
    Recovers(n, rs);
    var m := ReconAll(Restarted(n), rs);
    hide ReconAll, Lists, DistinctKeys;
    forall j | j in m.wires && m.wires[j].topoNs == ns && m.wires[j].uid == k.uid ensures j == k {
      var e :| Held(n, e) && Live(n, e) && KeyOfRecord(e) == j;
      assert Recovered(m, e);
    }
    forall e | Held(m, e) ensures Held(n, e) {}
  }

  /** A restart re-creates the end, as the wire it was, if its interface is still there. */
  lemma RestartKeepsEnd(n: Node, rs: seq<Record>, k: Key, w: Wire)
    requires HomeIn(n) && Lists(n, rs) && DistinctKeys(rs) && TableInv(n) && Keeps(n, k, w) && Standing(n, n.wires[k])
    ensures Keeps(ReconAll(Restarted(n), rs), k, w)
  {
    var r := StatusOf(n.name, n.wires[k]);
    assert Live(n, r) && KeyOfRecord(r) == k;
    Recovers(n, rs);
    SoleIsSpared(n, rs, k, r);
    SoleSurvives(n, rs, r.topoNs, k);
    hide ReconAll, Lists, DistinctKeys, SoleEnd, HomeIn, Spared;
    var m := ReconAll(Restarted(n), rs);
    assert Recovered(m, r) && m.records[r.topoNs] == Filter(n.records[r.topoNs], Spared(n, rs));
    assert r in m.records[r.topoNs];
  }

  // -------------------------------------------------------------- several lives

  /** What a daemon leaves alone until it stops, when the end still has its interface. */
  ghost predicate SpanSpares(n: Node, s: Span, k: Key, w: Wire) {
    AllElsewhere(s.ops, k, w) && k in Run(n, s.ops).wires && Standing(Run(n, s.ops), Run(n, s.ops).wires[k])
  }

  ghost predicate SpansSpare(n: Node, spans: seq<Span>, k: Key, w: Wire) {
    spans == [] ||
    var front := spans[..|spans| - 1];
    SpansSpare(n, front, k, w) && SpanSpares(AfterSpans(n, front), spans[|spans| - 1], k, w)
  }

  /** All that recovery relies on. */
  ghost predicate Durable(own: Owners, n: Node) {
    Inv(own, n) && UniqueInv(n) && NamesInv(n)
  }

  lemma SpanKeepsEnd(own: Owners, n: Node, s: Span, k: Key, w: Wire)
    requires Durable(own, n) && LegalSpan(own, n, s) && Keeps(n, k, w) && SpanSpares(n, s, k, w)
    ensures Durable(own, AfterSpan(n, s)) && Keeps(AfterSpan(n, s), k, w)
  {
    hide UniqueInv, NamesInv, Keeps, LegalRun, NewNames, AllElsewhere, Run;
    var d := Run(n, s.ops);
    SpanKeepsInv(own, n, s);
    RunKeepsInv(own, n, s.ops);
    RunKeepsUnique(own, n, s.ops);
    RunKeepsEnd(own, n, s.ops, k, w);
    ListsAreDistinct(own, d, s.order);
    RestartKeepsEnd(d, ListAll(d, s.order), k, w);
  }

  lemma {:induction false} SpansKeepEnd(own: Owners, n: Node, spans: seq<Span>, k: Key, w: Wire)
    requires Durable(own, n) && LegalSpans(own, n, spans) && Keeps(n, k, w) && SpansSpare(n, spans, k, w)
    ensures Durable(own, AfterSpans(n, spans)) && Keeps(AfterSpans(n, spans), k, w)
  {
    hide Durable, Keeps, LegalSpan, SpanSpares, AfterSpan;
    if spans != [] {
      var front := spans[..|spans| - 1];
      SpansKeepEnd(own, n, front, k, w);
      SpanKeepsEnd(own, AfterSpans(n, front), spans[|spans| - 1], k, w);
    }
  }

  /** The two nodes of a link after their daemons were restarted. */
  function Relived(m: Pair, sa: seq<Span>, sb: seq<Span>): Pair {
    Pair(AfterSpans(m.local, sa), AfterSpans(m.remote, sb))
  }

  /** Both ends are connected, and what each daemon needs to find its end again is there. */
  ghost predicate Lasting(own: Owners, m: Pair, q: Request) {
    && Durable(own, m.local) && Durable(own, m.remote)
    && Connected(m, q) && Sound(m.local, Near(q)) && Sound(m.remote, Far(q))
  }

  /** Both daemons live on, one process after the other, and leave the link's ends alone. */
  ghost predicate LivesSpare(own: Owners, m: Pair, q: Request, sa: seq<Span>, sb: seq<Span>)
    requires Connected(m, q)
  {
    && LegalSpans(own, m.local, sa) && SpansSpare(m.local, sa, Near(q), WireOf(m.local, q.here, q.uid))
    && LegalSpans(own, m.remote, sb) && SpansSpare(m.remote, sb, Far(q), WireOf(m.remote, q.there, q.uid))
  }

  lemma SameWiresConnect(m: Pair, r: Pair, q: Request)
    requires Connected(m, q) && Near(q) in r.local.wires && Far(q) in r.remote.wires
    requires SameWire(r.local.name, WireOf(r.local, q.here, q.uid), WireOf(m.local, q.here, q.uid))
    requires SameWire(r.remote.name, WireOf(r.remote, q.there, q.uid), WireOf(m.remote, q.there, q.uid))
    ensures Connected(r, q)
  {
  }

  lemma KeepsIsSound(n: Node, k: Key, w: Wire)
    requires Keeps(n, k, w)
    ensures Sound(n, k) && k in n.wires && SameWire(n.name, n.wires[k], w)
  {
  }

  lemma SoundKeepsItself(n: Node, k: Key)
    requires Sound(n, k)
    ensures k in n.wires && Keeps(n, k, n.wires[k])
  {
  }

  lemma LivesKeepLink(own: Owners, m: Pair, q: Request, sa: seq<Span>, sb: seq<Span>)
    requires Lasting(own, m, q) && LivesSpare(own, m, q, sa, sb)
    ensures Lasting(own, Relived(m, sa, sb), q)
  {
    var u, v := WireOf(m.local, q.here, q.uid), WireOf(m.remote, q.there, q.uid);
    SoundKeepsItself(m.local, Near(q));
    SoundKeepsItself(m.remote, Far(q));
    hide Durable, LegalSpans, SpansSpare, Keeps, Sound, SameWire, AfterSpans, Connected;
    SpansKeepEnd(own, m.local, sa, Near(q), u);
    SpansKeepEnd(own, m.remote, sb, Far(q), v);
    var r := Relived(m, sa, sb);
    KeepsIsSound(r.local, Near(q), u);
    KeepsIsSound(r.remote, Far(q), v);
    SameWiresConnect(m, r, q);
  }

  /** Frames of a link cross in both directions although both daemons were restarted any
      number of times, at any points of what they did meanwhile: until an end is taken
      out or made anew, or a daemon starts while the end's interface is missing. */
  lemma LinkOutlivesRestarts(own: Owners, net: Network, m: Pair, q: Request, sa: seq<Span>, sb: seq<Span>, opsA: seq<Op>, opsB: seq<Op>)
    requires Lasting(own, m, q) && LivesSpare(own, m, q, sa, sb) && q.here.nodeIp != q.there.nodeIp
    requires Untouched(own, Relived(m, sa, sb), q, opsA, opsB)
    ensures Carries(Later(net, Relived(m, sa, sb), q, opsA, opsB), q.here.nodeIp, Near(q), q.there.nodeIp, Far(q))
  {
    LivesKeepLink(own, m, q, sa, sb);
    hide LivesSpare, Relived, Inv, Connected, Sound, Untouched, Carries, Later, UniqueInv, NamesInv;
    CarriesLater(own, net, Relived(m, sa, sb), q, opsA, opsB);
  }

  // ------------------------------------------------- from the exchange onwards

  /** Writing the only end of a link through makes it sound. */
  lemma PutIsSound(n: Node, m: Node, v: Wire)
    requires Put(n, m, v) && SoleEnd(n, v.topoNs, KeyOf(v))
    ensures Sound(m, KeyOf(v))
  {
    var s := StatusOf(n.name, v);
    UpsertContents(Listed(n, v.topoNs), s);
    assert Held(m, s);
    forall e | Held(m, e) ensures Held(n, e) || e == s { PutHolds(n, m, v, e); }
  }

  lemma OpIsDurable(own: Owners, n: Node, op: Op)
    requires Durable(own, n) && Legal(own, n, op) && NewName(n, op)
    ensures Durable(own, Do(n, op))
  {
    OpKeepsInv(own, n, op);
    hide UniqueInv, NamesInv, Do, Legal, NewName, TableInv, OwnersInv, IndicesInv, StopInv, RecordsInv;
    OpKeepsUnique(own, n, op);
    OpKeepsNames(own, n, op);
  }

  lemma RunIsDurable(own: Owners, n: Node, ops: seq<Op>)
    requires Durable(own, n) && LegalRun(own, n, ops) && NewNames(n, ops)
    ensures Durable(own, Run(n, ops))
  {
    hide Inv, UniqueInv, NamesInv, LegalRun, NewNames, Run;
    RunKeepsInv(own, n, ops);
    RunKeepsUnique(own, n, ops);
    RunKeepsNames(own, n, ops);
  }

  /** Whoever makes an interface on one of the nodes meanwhile, and the exchange itself,
      use names that no other wire has. */
  ghost predicate NamedApart(n: Pair, q: Request, w: Meanwhile, t: Trouble) {
    var b := Asking(n, q, w);
    && NewNames(Begin(n.local, q).0, w.a1) && NewNames(n.remote, w.b1)
    && NewNames(Asked(n, q, w, t).0.local, w.a2) && NewNames(Asked(n, q, w, t).0.remote, w.b2)
    && (q.hostA in b.local.links ==> NewName(b.remote, OpAddRemote(RemoteDef(q, b.local.links[q.hostA]), q.hostB, t.remote)))
    && OwnName(Registering(n, q, w, t).local, q.hostA, Near(q))
  }

  /** When each end is made nothing else on its node is of the link, and nothing of it
      is made there before the other end is registered. */
  ghost predicate OnlyEnds(n: Pair, q: Request, w: Meanwhile, t: Trouble) {
    var b := Asked(n, q, w, t).0.remote;
    && SoleEnd(Asking(n, q, w).remote, q.there.topoNs, Far(q))
    && SoleEnd(Registering(n, q, w, t).local, q.here.topoNs, Near(q))
    && (Far(q) in b.wires ==> AllElsewhere(w.b2, Far(q), b.wires[Far(q)]))
  }

  lemma FarIsMade(own: Owners, b: Node, q: Request, id: int, t: Trouble)
    requires Durable(own, b) && EndOwned(own, q.there) && SoleEnd(b, q.there.topoNs, Far(q))
    requires NewName(b, OpAddRemote(RemoteDef(q, id), q.hostB, t.remote)) && AddRemote(b, RemoteDef(q, id), q.hostB, t.remote).1.Ok?
    ensures var m := AddRemote(b, RemoteDef(q, id), q.hostB, t.remote).0; Durable(own, m) && Sound(m, Far(q))
  {
    var d := RemoteDef(q, id);
    OpIsDurable(own, b, OpAddRemote(d, q.hostB, t.remote));
    AddRemoteOutcome(own, b, d, q.hostB, t.remote);
    hide AddRemote, SoleEnd, Inv, UniqueInv, NamesInv, NewName;
    var m := AddRemote(b, d, q.hostB, t.remote).0;
    assert own(m.wires[Far(q)].netNs).0 == m.wires[Far(q)].topoNs == q.there.topoNs;
    PutIsSound(b, m, m.wires[Far(q)]);
  }

  lemma NearIsMade(own: Owners, a: Node, q: Request, index: int)
    requires Durable(own, a) && EndOwned(own, q.here) && SoleEnd(a, q.here.topoNs, Near(q)) && OwnName(a, q.hostA, Near(q))
    requires FreshFor(a, LocalDef(q, index)) && AddLocal(a, LocalDef(q, index)).1.Ok?
    ensures var m := AddLocal(a, LocalDef(q, index)).0; Durable(own, m) && Sound(m, Near(q))
  {
    var d := LocalDef(q, index);
    OpIsDurable(own, a, OpAddLocal(d));
    AddLocalPuts(a, d);
    assert Opens(a, d.hostIface);
    hide AddLocal, SoleEnd, Inv, UniqueInv, NamesInv;
    PutIsSound(a, AddLocal(a, d).0, AddLocal(a, d).0.wires[Near(q)]);
  }

  lemma FarLasts(own: Owners, n: Pair, q: Request, w: Meanwhile, t: Trouble)
    requires Durable(own, n.remote) && EndOwned(own, q.there) && Serialised(own, n, q, w, t) && NamedApart(n, q, w, t) && OnlyEnds(n, q, w, t)
    requires Asked(n, q, w, t).1.Ok?
    ensures var b := Registering(n, q, w, t).remote; Durable(own, b) && Sound(b, Far(q))
  {
    hide Durable, LegalRun, NewNames, NewName, NoneNames, NoneConcerns, SoleEnd, AllElsewhere, AddRemote, Run, Begin, OwnName, Sound;
    var m := Asking(n, q, w);
    RunIsDurable(own, n.remote, w.b1);
    FarIsMade(own, m.remote, q, m.local.links[q.hostA], t);
    var b := Asked(n, q, w, t).0.remote;
    RunIsDurable(own, b, w.b2);
    SoundKeepsItself(b, Far(q));
    DurableHasInv(own, b);
    RunKeepsEnd(own, b, w.b2, Far(q), b.wires[Far(q)]);
    KeepsIsSound(Run(b, w.b2), Far(q), b.wires[Far(q)]);
  }

  lemma DurableHasInv(own: Owners, n: Node)
    requires Durable(own, n)
    ensures Inv(own, n)
  {
  }

  lemma NearWaits(own: Owners, n: Pair, q: Request, w: Meanwhile, t: Trouble)
    requires Durable(own, n.local) && Begin(n.local, q).1 && Serialised(own, n, q, w, t) && NamedApart(n, q, w, t)
    ensures Durable(own, Registering(n, q, w, t).local)
  {
    OpIsDurable(own, n.local, OpMakeVeth(IfaceOf(q.here), q.hostA));
    assert Begin(n.local, q).0 == Do(n.local, OpMakeVeth(IfaceOf(q.here), q.hostA));
    hide Durable, LegalRun, NewNames, NewName, NoneNames, NoneConcerns, AskPeer, Run, Begin, OwnName;
    RunIsDurable(own, Begin(n.local, q).0, w.a1);
    RunIsDurable(own, Asking(n, q, w).local, w.a2);
  }

  /** A successful exchange makes a link that lasts: both nodes keep what recovery relies
      on, and both ends are recorded, each as the only one of its link on its node. */
  lemma ExchangeLasts(own: Owners, n: Pair, q: Request, w: Meanwhile, t: Trouble)
    requires Durable(own, n.local) && Durable(own, n.remote) && EndOwned(own, q.here) && EndOwned(own, q.there)
    requires Serialised(own, n, q, w, t) && NamedApart(n, q, w, t) && OnlyEnds(n, q, w, t)
    requires Exchange(n, q, w, t).1 && FarKnows(n, q, w)
    ensures Lasting(own, Exchange(n, q, w, t).0, q)
  {
    ExchangeParts(n, q, w, t);
    DurableHasInv(own, n.local);
    DurableHasInv(own, n.remote);
    hide Durable, Inv, Serialised, Exchange, Asked, Registering, Asking, AskPeer, AddLocal, Begin, FarKnows, SoleEnd, Sound, Reserved, Run, LegalRun;
    ExchangeConnects(own, n, q, w, t);
    StepsKeepInv(own, n, q, w, t);
    FarLasts(own, n, q, w, t);
    NearWaits(own, n, q, w, t);
    var p, r := Registering(n, q, w, t), Asked(n, q, w, t).1;
    ReservedIsFresh(p.local, q, n.local.nextIndex, r.index);
    NearIsMade(own, p.local, q, r.index);
  }
}
