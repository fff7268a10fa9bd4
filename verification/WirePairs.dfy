/** The two ends of a veth: a tracked wire's interface on the node and the one in its
    pod stay a pair, and nobody else's operation takes either away. */
module WirePairs {
  import opened WireRecords
  import opened WireNode
  import opened WireInvariants
  import opened WireTheorems
  import opened Handshake

  /** A veth in a pod has its other end on the node, and no two have the same one. */
  ghost predicate VethInv(n: Node) {
    && (forall p :: p in n.pods && n.pods[p].veth ==> n.pods[p].hostIface in n.links)
    && (forall p, q :: p in n.pods && q in n.pods && n.pods[p].veth && n.pods[q].veth && n.pods[p].hostIface == n.pods[q].hostIface ==> p == q)
  }

  /** The interface that the wire was made on is still there. */
  predicate HasIface(n: Node, w: Wire) {
    w.ifaceName in n.links && n.links[w.ifaceName] == w.ifaceId
  }

  predicate Joined(n: Node, p: PodIface, host: string) {
    p in n.pods && n.pods[p] == PodLink(true, host)
  }

  ghost predicate PairInv(n: Node) {
    forall k :: k in n.wires && HasIface(n, n.wires[k]) ==> Joined(n, PodIface(n.wires[k].netNs, n.wires[k].podIface), n.wires[k].ifaceName)
  }

  /** The interface that a local end takes over is the other end of the pod's. */
  predicate PairedFor(n: Node, op: Op) {
    op.OpAddLocal? && op.d.hostIface in n.links ==> Joined(n, PodIface(op.d.netNs, op.d.podIface), op.d.hostIface)
  }

  predicate PairedRun(n: Node, ops: seq<Op>) {
    ops == [] || (PairedRun(n, ops[..|ops| - 1]) && PairedFor(Run(n, ops[..|ops| - 1]), ops[|ops| - 1]))
  }

  // -------------------------------------------------------- what operations keep

  /** Interfaces go, but not one end of a veth without the other. */
  ghost predicate Fewer(n: Node, m: Node) {
    && (forall h :: h in m.links ==> h in n.links && m.links[h] == n.links[h])
    && (forall p :: p in m.pods ==> p in n.pods && m.pods[p] == n.pods[p])
    && (forall p :: p in n.pods && n.pods[p].veth ==> (p in m.pods <==> n.pods[p].hostIface in m.links))
  }

  predicate SameIfaces(v: Wire, w: Wire) {
    v.ifaceName == w.ifaceName && v.ifaceId == w.ifaceId && v.netNs == w.netNs && v.podIface == w.podIface
  }

  /** The wires are the same or fewer, on the same interfaces. */
  ghost predicate SameEnds(n: Node, m: Node) {
    forall k :: k in m.wires ==> k in n.wires && SameIfaces(n.wires[k], m.wires[k])
  }

  lemma FewerKeepsPairs(n: Node, m: Node)
    requires VethInv(n) && PairInv(n) && Fewer(n, m) && SameEnds(n, m)
    ensures VethInv(m) && PairInv(m)
  {
  }

  lemma NothingGone(n: Node, m: Node)
    requires VethInv(n) && m.links == n.links && m.pods == n.pods
    ensures Fewer(n, m)
  {
  }

  lemma DropIsFewer(n: Node, gone: set<string>)
    requires VethInv(n)
    ensures Fewer(n, Drop(n, gone))
  {
  }

  lemma MakeVethKeepsPairs(n: Node, p: PodIface, host: string)
    requires IndicesInv(n) && VethInv(n) && PairInv(n) && p !in n.pods && host !in n.links
    ensures VethInv(MakeVeth(n, p, host)) && PairInv(MakeVeth(n, p, host))
  {
  }

  lemma AdoptKeepsPairs(n: Node, w: Wire)
    requires VethInv(n) && PairInv(n) && (HasIface(n, w) ==> Joined(n, PodIface(w.netNs, w.podIface), w.ifaceName))
    ensures VethInv(Adopt(n, w)) && PairInv(Adopt(n, w))
  {
    hide Upsert, StatusOf, Listed;
  }

  lemma UpdateWireIsSame(n: Node, k: Key, peerIfaceId: int)
    requires k in n.wires
    ensures var m := UpdateWire(n, k, peerIfaceId); SameEnds(n, m) && m.links == n.links && m.pods == n.pods
  {
    hide Upsert, StatusOf, Listed;
  }

  lemma EnsureNoStaleIsFewer(n: Node, d: WireDef, f: Faults)
    requires VethInv(n)
    ensures Fewer(n, EnsureNoStale(n, d, f).0) && SameEnds(n, EnsureNoStale(n, d, f).0)
  {
    hide Recorded;
    var p := PodIface(d.netNs, d.podIface);
    NothingGone(n, n);
    if p in n.pods { DropIsFewer(n, {n.pods[p].hostIface}); }
  }

  lemma MakingKeepsPairs(n: Node, d: WireDef, host: string)
    requires IndicesInv(n) && VethInv(n) && PairInv(n) && PodIface(d.netNs, d.podIface) !in n.pods && host !in n.links
    ensures var m := MakeVeth(n, PodIface(d.netNs, d.podIface), host); var r := Adopt(m, CreateGWire(n.nextIndex, host, m.nextStop, d));
      VethInv(m) && PairInv(m) && VethInv(r) && PairInv(r)
  {
    hide Adopt, VethInv, PairInv, IndicesInv;
    var m := MakeVeth(n, PodIface(d.netNs, d.podIface), host);
    MakeVethKeepsPairs(n, PodIface(d.netNs, d.podIface), host);
    AdoptKeepsPairs(m, CreateGWire(n.nextIndex, host, m.nextStop, d));
  }

  lemma AddRemoteKeepsPairs(n: Node, d: WireDef, host: string, f: Faults)
    requires IndicesInv(n) && TableInv(n) && VethInv(n) && PairInv(n)
    ensures VethInv(AddRemote(n, d, host, f).0) && PairInv(AddRemote(n, d, host, f).0)
  {
    var p, n1 := PodIface(d.netNs, d.podIface), EnsureNoStale(n, d, f).0;
    EnsureNoStaleIsFewer(n, d, f);
    EnsureNoStaleKeepsTable(n, d, f);
    FewerKeepsPairs(n, n1);
    hide EnsureNoStale, MakeVeth, Adopt, UpdateWire, Fewer, SameEnds, VethInv, PairInv, TableInv, IndicesInv;
    if KeyOfDef(d) in n.wires {
      UpdateWireIsSame(n, KeyOfDef(d), d.peerIfaceId);
      NothingGone(n, UpdateWire(n, KeyOfDef(d), d.peerIfaceId));
      FewerKeepsPairs(n, UpdateWire(n, KeyOfDef(d), d.peerIfaceId));
    } else if p !in n1.pods && host !in n1.links {
      MakingKeepsPairs(n1, d, host);
    }
  }

  lemma AddLocalKeepsPairs(n: Node, d: WireDef)
    requires VethInv(n) && PairInv(n) && PairedFor(n, OpAddLocal(d))
    ensures VethInv(AddLocal(n, d).0) && PairInv(AddLocal(n, d).0)
  {
    hide Adopt, VethInv, PairInv;
    if Opens(n, d.hostIface) {
      AdoptKeepsPairs(n, CreateGWire(n.links[d.hostIface], d.hostIface, n.nextStop, d).(originator := HostCreated, originatorIp := "unknown"));
    }
  }

  lemma DropIgnoresRest(n: Node, m: Node, gone: set<string>)
    requires m.links == n.links && m.pods == n.pods
    ensures Drop(m, gone).links == Drop(n, gone).links && Drop(m, gone).pods == Drop(n, gone).pods
  {
  }

  lemma RemoveDrops(n: Node, w: Wire, stuck: bool)
    ensures var m := Remove(n, w, stuck); var d := Drop(n, WithIndex(n, w.ifaceId));
      (m.links == n.links && m.pods == n.pods) || (m.links == d.links && m.pods == d.pods)
  {
    hide WithoutLink, WithIndex, Drop;
    DropIgnoresRest(n, n.(limbo := n.limbo - {w}, closed := if w.ready then n.closed + {w.stop} else n.closed), WithIndex(n, w.ifaceId));
  }

  lemma SameLinks(n: Node, d: Node, m: Node)
    requires Fewer(n, d) && m.links == d.links && m.pods == d.pods
    ensures Fewer(n, m)
  {
  }

  lemma RemoveIsFewer(n: Node, w: Wire, stuck: bool)
    requires VethInv(n)
    ensures Fewer(n, Remove(n, w, stuck)) && SameEnds(n, Remove(n, w, stuck))
  {
    hide Remove, Drop, WithIndex, Fewer, VethInv;
    RemoveKeepsWires(n, w, stuck);
    RemoveDrops(n, w, stuck);
    NothingGone(n, n);
    DropIsFewer(n, WithIndex(n, w.ifaceId));
    var m, d := Remove(n, w, stuck), Drop(n, WithIndex(n, w.ifaceId));
    if m.links == n.links && m.pods == n.pods { SameLinks(n, n, m); } else { SameLinks(n, d, m); }
  }

  predicate Small(op: Op) {
    op.OpWireDown? || op.OpExtract? || op.OpPurge? || op.OpLost? || op.OpDeaf?
  }

  lemma SmallOpKeepsEnds(n: Node, op: Op)
    requires Small(op)
    ensures SameEnds(n, Do(n, op))
    ensures !op.OpLost? ==> Do(n, op).links == n.links && Do(n, op).pods == n.pods
  {
    hide AddRemote, AddLocal, Remove, MakeVeth, WithoutPod, Drop;
    assert Drop(n, if op.OpLost? then op.gone else {}).wires == n.wires by { DropKeepsWires(n, if op.OpLost? then op.gone else {}); }
  }

  lemma DropKeepsWires(n: Node, gone: set<string>)
    ensures Drop(n, gone).wires == n.wires
  {
  }

  lemma SmallOpIsFewer(n: Node, op: Op)
    requires VethInv(n) && Small(op)
    ensures Fewer(n, Do(n, op)) && SameEnds(n, Do(n, op))
  {
    hide AddRemote, AddLocal, Remove, MakeVeth, VethInv, Fewer, SameEnds, Purge, Extract, WireDown, Drop;
    SmallOpKeepsEnds(n, op);
    if op.OpLost? { DropIsFewer(n, op.gone); } else { NothingGone(n, Do(n, op)); }
  }

  lemma OpKeepsPairs(n: Node, op: Op)
    requires IndicesInv(n) && TableInv(n) && VethInv(n) && PairInv(n) && PairedFor(n, op)
    ensures VethInv(Do(n, op)) && PairInv(Do(n, op))
  {
    hide AddRemote, AddLocal, Remove, VethInv, PairInv, PairedFor, IndicesInv, TableInv, Fewer, SameEnds;
    match op
    case OpMakeVeth(p, host) => if p !in n.pods && host !in n.links { MakeVethKeepsPairs(n, p, host); }
    case OpAddRemote(d, host, f) => AddRemoteKeepsPairs(n, d, host, f);
    case OpAddLocal(d) => AddLocalKeepsPairs(n, d);
    case OpRemove(w, stuck) => RemoveIsFewer(n, w, stuck); FewerKeepsPairs(n, Remove(n, w, stuck));
    case _ => SmallOpIsFewer(n, op); FewerKeepsPairs(n, Do(n, op));
  }

  /** In every run, as long as a tracked wire's interface is there, so is the one in its
      pod, as its other end, and it is the only one. */
  lemma {:induction false} RunKeepsPairs(own: Owners, n: Node, ops: seq<Op>)
    requires Inv(own, n) && VethInv(n) && PairInv(n) && LegalRun(own, n, ops) && PairedRun(n, ops)
    ensures VethInv(Run(n, ops)) && PairInv(Run(n, ops))
  {
    hide VethInv, PairInv, PairedFor, Do, Legal;
    if ops != [] {
      RunKeepsPairs(own, n, ops[..|ops| - 1]);
      RunKeepsInv(own, n, ops[..|ops| - 1]);
      OpKeepsPairs(Run(n, ops[..|ops| - 1]), ops[|ops| - 1]);
    }
  }

  // ------------------------------------------------------------ nobody takes them

  /** The interface of a tracked wire in its pod is the other end of its interface on the
      node, and of nothing else. */
  lemma PairsMatch(n: Node, k: Key)
    requires VethInv(n) && PairInv(n) && k in n.wires && HasIface(n, n.wires[k])
    ensures EndsMatch(n, n.wires[k])
  {
  }

  /** An interface in a pod belongs to one link; w itself is not taken out or taken over,
      and its interface does not vanish. */
  predicate Spares(op: Op, w: Wire) {
    match op
    case OpAddRemote(d, _, _) => d.netNs == w.netNs && d.podIface == w.podIface ==> d.uid == w.uid
    case OpAddLocal(d) => KeyOfDef(d) != KeyOf(w)
    case OpExtract(k) => k != KeyOf(w)
    case OpLost(gone) => w.ifaceName !in gone
    case _ => true
  }

  predicate NoneTakes(ops: seq<Op>, w: Wire) {
    forall i :: 0 <= i < |ops| ==> Spares(ops[i], w)
  }

  /** The wire is tracked under k with both its interfaces. */
  predicate Whole(n: Node, k: Key, w: Wire) {
    k in n.wires && KeyOf(w) == k && SameIfaces(w, n.wires[k]) && HasIface(n, w) && Joined(n, PodIface(w.netNs, w.podIface), w.ifaceName)
  }

  lemma EnsureNoStaleKeepsWhole(n: Node, d: WireDef, f: Faults, k: Key, w: Wire)
    requires VethInv(n) && Whole(n, k, w) && KeyOfDef(d) !in n.wires && (d.netNs == w.netNs && d.podIface == w.podIface ==> d.uid == w.uid)
    ensures Whole(EnsureNoStale(n, d, f).0, k, w)
  {
    hide Recorded;
  }

  lemma MadeKeepsWhole(n: Node, p: PodIface, host: string, v: Wire, k: Key, w: Wire)
    requires Whole(n, k, w) && p !in n.pods && host !in n.links && KeyOf(v) != k
    ensures Whole(MakeVeth(n, p, host), k, w) && Whole(Adopt(MakeVeth(n, p, host), v), k, w)
  {
    hide Upsert, StatusOf, Listed;
  }

  lemma UpdateWireKeepsWhole(n: Node, j: Key, peerIfaceId: int, k: Key, w: Wire)
    requires Whole(n, k, w) && j in n.wires
    ensures Whole(UpdateWire(n, j, peerIfaceId), k, w)
  {
    hide Upsert, StatusOf, Listed;
  }

  lemma AddRemoteKeepsWhole(n: Node, d: WireDef, host: string, f: Faults, k: Key, w: Wire)
    requires VethInv(n) && Whole(n, k, w) && Spares(OpAddRemote(d, host, f), w)
    ensures Whole(AddRemote(n, d, host, f).0, k, w)
  {
    var p, n1 := PodIface(d.netNs, d.podIface), EnsureNoStale(n, d, f).0;
    if KeyOfDef(d) in n.wires {
      UpdateWireKeepsWhole(n, KeyOfDef(d), d.peerIfaceId, k, w);
    } else {
      EnsureNoStaleKeepsWhole(n, d, f, k, w);
      EnsureNoStaleTouchesNoWire(n, d, f);
      assert k in n.wires && k != KeyOfDef(d);
      hide EnsureNoStale, MakeVeth, Adopt, Whole, VethInv;
      if p !in n1.pods && host !in n1.links {
        MadeKeepsWhole(n1, p, host, CreateGWire(n1.nextIndex, host, MakeVeth(n1, p, host).nextStop, d), k, w);
      }
    }
  }

  lemma FewerKeepsWhole(n: Node, m: Node, k: Key, w: Wire)
    requires Whole(n, k, w) && Fewer(n, m) && SameEnds(n, m) && k in m.wires && w.ifaceName in m.links
    ensures Whole(m, k, w)
  {
  }

  lemma RemoveKeepsWhole(n: Node, v: Wire, stuck: bool, k: Key, w: Wire)
    requires TableInv(n) && VethInv(n) && Whole(n, k, w)
    ensures Whole(Remove(n, v, stuck), k, w)
  {
    if v in n.limbo {
      assert w.ifaceName !in WithIndex(n, v.ifaceId);
      hide Remove, Fewer, SameEnds, VethInv, TableInv, WithIndex;
      RemoveKeepsWires(n, v, stuck);
      RemoveDrops(n, v, stuck);
      RemoveIsFewer(n, v, stuck);
      FewerKeepsWhole(n, Remove(n, v, stuck), k, w);
    }
  }

  lemma AddLocalKeepsWhole(n: Node, d: WireDef, k: Key, w: Wire)
    requires Whole(n, k, w) && KeyOfDef(d) != k
    ensures Whole(AddLocal(n, d).0, k, w)
  {
    hide Upsert, StatusOf, Listed;
  }

  lemma OpKeepsWhole(n: Node, op: Op, k: Key, w: Wire)
    requires TableInv(n) && VethInv(n) && Whole(n, k, w) && Spares(op, w)
    ensures Whole(Do(n, op), k, w)
  {
    hide AddRemote, AddLocal, Remove, VethInv, TableInv, Fewer;
    match op
    case OpAddRemote(d, host, f) => AddRemoteKeepsWhole(n, d, host, f, k, w);
    case OpAddLocal(d) => AddLocalKeepsWhole(n, d, k, w);
    case OpRemove(v, stuck) => RemoveKeepsWhole(n, v, stuck, k, w);
    case OpMakeVeth(_, _) =>
    case _ => SmallOpIsFewer(n, op); FewerKeepsWhole(n, Do(n, op), k, w);
  }

  lemma {:induction false} RunKeepsWhole(own: Owners, n: Node, ops: seq<Op>, k: Key, w: Wire)
    requires Inv(own, n) && VethInv(n) && PairInv(n) && LegalRun(own, n, ops) && PairedRun(n, ops)
    requires Whole(n, k, w) && NoneTakes(ops, w)
    ensures Whole(Run(n, ops), k, w)
  {
    hide VethInv, PairInv, Whole, Spares, PairedFor, Do, Legal;
    if ops != [] {
      var front := ops[..|ops| - 1];
      RunKeepsWhole(own, n, front, k, w);
      RunKeepsInv(own, n, front);
      RunKeepsPairs(own, n, front);
      OpKeepsWhole(Run(n, front), ops[|ops| - 1], k, w);
    }
  }

  lemma StartPairs(name: string)
    ensures VethInv(Start(name)) && PairInv(Start(name))
  {
  }

  /** A wire that is tracked after any run, on the interface it was made on, has the veth
      of its pod at the other end; and whatever else the node does then, creations
      that fail and clean up after themselves, deletions of other wires, updates, it
      stays tracked with both its ends. */
  lemma NobodyTakesAnEnd(own: Owners, name: string, ops: seq<Op>, k: Key, more: seq<Op>)
    requires LegalRun(own, Start(name), ops) && PairedRun(Start(name), ops)
    requires k in Run(Start(name), ops).wires && HasIface(Run(Start(name), ops), Run(Start(name), ops).wires[k])
    requires var n := Run(Start(name), ops);
      LegalRun(own, n, more) && PairedRun(n, more) && NoneTakes(more, n.wires[k])
    ensures var n := Run(Start(name), ops); var m := Run(n, more);
      && EndsMatch(n, n.wires[k]) && EndsMatch(m, n.wires[k])
      && k in m.wires && SameIfaces(n.wires[k], m.wires[k]) && HasIface(m, m.wires[k])
  {
    hide VethInv, PairInv, PairedFor, Legal, Run;
    var n := Run(Start(name), ops);
    StartInv(own, name);
    StartPairs(name);
    RunKeepsInv(own, Start(name), ops);
    RunKeepsPairs(own, Start(name), ops);
    PairsMatch(n, k);
    RunKeepsWhole(own, n, more, k, n.wires[k]);
    RunKeepsPairs(own, n, more);
    PairsMatch(Run(n, more), k);
  }

  /** In a run, whatever fails, a remote creation takes away at most the one interface it
      was asked to create, and that only if no wire is tracked or recorded for it. */
  lemma CleanupSparesOthers(own: Owners, name: string, ops: seq<Op>, d: WireDef, host: string, f: Faults, p: PodIface)
    requires LegalRun(own, Start(name), ops) && PairedRun(Start(name), ops) && p in Run(Start(name), ops).pods
    ensures var n := Run(Start(name), ops); var m := AddRemote(n, d, host, f).0;
      || (p in m.pods && m.pods[p] == n.pods[p])
      || (p == PodIface(d.netNs, d.podIface) && n.pods[p].veth && KeyOfDef(d) !in n.wires && !Recorded(n, KeyOfDef(d)))
  {
    hide PairInv, PairedFor, Legal, Run, AddRemote, Recorded;
    var n := Run(Start(name), ops);
    StartInv(own, name);
    StartPairs(name);
    RunKeepsPairs(own, Start(name), ops);
    var m := AddRemote(n, d, host, f).0;
    if !(p in m.pods && m.pods[p] == n.pods[p]) { TakenIsTheRemnant(n, d, host, f, p); }
  }

  lemma TakenIsTheRemnant(n: Node, d: WireDef, host: string, f: Faults, p: PodIface)
    requires VethInv(n) && p in n.pods && !(p in AddRemote(n, d, host, f).0.pods && AddRemote(n, d, host, f).0.pods[p] == n.pods[p])
    ensures p == PodIface(d.netNs, d.podIface) && n.pods[p].veth && KeyOfDef(d) !in n.wires && !Recorded(n, KeyOfDef(d))
  {
    hide AddRemote, Recorded;
    if !n.pods[p].veth { PlainStays(n, d, host, f, p); }
    CleanupIsFailSafe(n, d, host, f, p);
  }

  lemma PlainStays(n: Node, d: WireDef, host: string, f: Faults, p: PodIface)
    requires p in n.pods && !n.pods[p].veth
    ensures var m := AddRemote(n, d, host, f).0; p in m.pods && m.pods[p] == n.pods[p]
  {
    hide Recorded, Upsert, StatusOf, Listed, CreateGWire, KeyOf;
    var n1 := EnsureNoStale(n, d, f).0;
    assert p in n1.pods && n1.pods[p] == n.pods[p];
    hide EnsureNoStale;
  }

  // ------------------------------------------------ the plugin's ends are paired

  ghost predicate JoinedIfThere(n: Node, p: PodIface, host: string) {
    host in n.links ==> Joined(n, p, host)
  }

  lemma AddRemoteKeepsJoined(n: Node, d: WireDef, h: string, f: Faults, p: PodIface, host: string)
    requires JoinedIfThere(n, p, host) && h != host
    ensures JoinedIfThere(AddRemote(n, d, h, f).0, p, host)
  {
    hide Recorded, Upsert, StatusOf, Listed, CreateGWire, KeyOf;
    var n1 := EnsureNoStale(n, d, f).0;
    assert JoinedIfThere(n1, p, host);
    hide EnsureNoStale;
  }

  lemma OpKeepsJoined(n: Node, op: Op, p: PodIface, host: string)
    requires JoinedIfThere(n, p, host) && !Names(op, host)
    ensures JoinedIfThere(Do(n, op), p, host)
  {
    hide AddRemote, Remove, WithoutLink, WithoutPod, Upsert, StatusOf, Listed;
    match op
    case OpAddRemote(d, h, f) => AddRemoteKeepsJoined(n, d, h, f, p, host);
    case OpRemove(w, stuck) => RemoveDrops(n, w, stuck);
    case _ =>
  }

  lemma {:induction false} RunKeepsJoined(n: Node, ops: seq<Op>, p: PodIface, host: string)
    requires JoinedIfThere(n, p, host) && NoneNames(ops, host)
    ensures JoinedIfThere(Run(n, ops), p, host)
  {
    hide JoinedIfThere, Names, Do;
    if ops != [] {
      RunKeepsJoined(n, ops[..|ops| - 1], p, host);
      OpKeepsJoined(Run(n, ops[..|ops| - 1]), ops[|ops| - 1], p, host);
    }
  }

  /** The interface that an exchange registers is still the other end of the pod's,
      whatever was done between its steps by those who do not use its name. */
  lemma ExchangeIsPaired(n: Pair, q: Request, w: Meanwhile, t: Trouble, index: int)
    requires Begin(n.local, q).1 && NoneNames(w.a1, q.hostA) && NoneNames(w.a2, q.hostA)
    ensures PairedFor(Registering(n, q, w, t).local, OpAddLocal(LocalDef(q, index)))
  {
    hide NoneNames, Run, AskPeer;
    RunKeepsJoined(Begin(n.local, q).0, w.a1, IfaceOf(q.here), q.hostA);
    RunKeepsJoined(Asked(n, q, w, t).0.local, w.a2, IfaceOf(q.here), q.hostA);
  }
}
