/** What is left of an exchange that failed, of a peer that moved, and of a wire that
    frames are still addressed to. */
module HandshakeRuns {
  import opened WireRecords
  import opened WireNode
  import opened WireInvariants
  import opened WireTheorems
  import opened Handshake

  // ------------------------------------------------------- failed exchanges

  /** An exchange that the peer failed leaves this end's veth behind, and nothing else. */
  lemma FailureLeavesVeth(n: Pair, q: Request, t: Trouble)
    requires Begin(n.local, q).1 && Asked(n, q, NOTHING, t).1.Err?
    ensures !Exchange(n, q, NOTHING, t).1
    ensures var a := Exchange(n, q, NOTHING, t).0.local;
      && a.pods == n.local.pods[IfaceOf(q.here) := PodLink(true, q.hostA)] && a.links == n.local.links[q.hostA := n.local.nextIndex]
      && a.wires == n.local.wires && a.records == n.local.records
  {
  }

  /** While it is there, no exchange for the pod's interface succeeds, whatever names and
      peers it is tried with. */
  lemma LeftoverBlocks(n: Pair, q: Request, w: Meanwhile, t: Trouble)
    requires IfaceOf(q.here) in n.local.pods
    ensures Exchange(n, q, w, t) == (n, false)
  {
  }

  /** A DEL is not the only way out: the peer may trigger the creation of this end. If the
      end is tracked, that only updates it and the veth stays. Otherwise the veth goes if
      and only if the end is not recorded; and the end is made on it, under the new
      name, if and only if that name is free besides. */
  lemma PeerClearsLeftover(n: Pair, q: Request, t: Trouble, d: WireDef, host: string)
    requires Begin(n.local, q).1 && Asked(n, q, NOTHING, t).1.Err?
    requires KeyOfDef(d) == Near(q) && PodIface(d.netNs, d.podIface) == IfaceOf(q.here)
    ensures var a := Exchange(n, q, NOTHING, t).0.local;
      var (m, r) := AddRemote(a, d, host, NO_FAULTS);
      if Near(q) in n.local.wires then r.Ok? && m.pods == a.pods && m.links == a.links
      else
        && (HasVeth(m, IfaceOf(q.here), q.hostA, n.local.nextIndex) <==> Recorded(n.local, Near(q)))
        && (r.Ok? <==> !Recorded(n.local, Near(q)) && (host == q.hostA || host !in n.local.links))
        && (r.Ok? ==> HasVeth(m, IfaceOf(q.here), host, r.index) && Near(q) in m.wires && m.wires[Near(q)].ifaceId == r.index)
  {
    hide Recorded, Upsert, StatusOf, Listed;
    FailureLeavesVeth(n, q, t);
    var a := Exchange(n, q, NOTHING, t).0.local;
    assert Recorded(a, Near(q)) <==> Recorded(n.local, Near(q)) by { SameRecords(n.local, a, Near(q)); }
  }

  /** The pod has an interface whose other end is on the node, under that name and index. */
  predicate HasVeth(n: Node, p: PodIface, host: string, id: int) {
    p in n.pods && n.pods[p] == PodLink(true, host) && host in n.links && n.links[host] == id
  }

  lemma SameRecords(n: Node, m: Node, k: Key)
    requires m.records == n.records
    ensures Recorded(m, k) <==> Recorded(n, k)
  {
  }

  // ----------------------------------------------------------- a moved peer

  /** The pod's link was made from node a; the pod comes back on node c and makes it
      again, successfully; but the far end still sends to a. */
  lemma MovedPeerRun(q: Request, again: Request, net: Network, id: int)
    requires again.uid == q.uid && again.there == q.there && again.here.nodeIp != q.here.nodeIp
    ensures var (m, made) := Exchange(Pair(Start("a"), Start("b")), q, NOTHING, NO_TROUBLE);
      var (r, remade) := Exchange(Pair(Start("c"), m.remote), again, NOTHING, NO_TROUBLE);
      made && remade && Tracks(r.remote, q.there, q.uid) && Deliver(net, WireOf(r.remote, q.there, q.uid)) != At(again.here.nodeIp, id)
  {
    hide Exchange, TableInv, IndicesInv;
    var n := Pair(Start("a"), Start("b"));
    StartTable("b");
    ExchangeSucceedsIff(n, q);
    FarAfter(n, q);
    var m := Exchange(n, q, NOTHING, NO_TROUBLE).0;
    var c := Pair(Start("c"), m.remote);
    FarIsTabled(n, q);
    ExchangeSucceedsIff(c, again);
    FarAfter(c, again);
  }

  lemma StartTable(name: string)
    ensures IndicesInv(Start(name)) && TableInv(Start(name))
  {
  }

  lemma FarIsTabled(n: Pair, q: Request)
    requires IndicesInv(n.remote) && TableInv(n.remote)
    ensures TableInv(Exchange(n, q, NOTHING, NO_TROUBLE).0.remote)
  {
    hide TableInv, IndicesInv, AddRemote;
    if Begin(n.local, q).1 {
      var a := Begin(n.local, q).0;
      AddRemoteKeepsTable(n.remote, RemoteDef(q, a.links[q.hostA]), q.hostB, NO_FAULTS);
    }
  }

  lemma FarAfter(n: Pair, q: Request)
    requires Exchange(n, q, NOTHING, NO_TROUBLE).1 && TableInv(n.remote)
    ensures var b := Exchange(n, q, NOTHING, NO_TROUBLE).0.remote;
      && Tracks(b, q.there, q.uid)
      && WireOf(b, q.there, q.uid).peerNodeIp == (if Tracks(n.remote, q.there, q.uid) then WireOf(n.remote, q.there, q.uid).peerNodeIp else q.here.nodeIp)
  {
    hide AddRemote, AddLocal;
    AskedAnswers(n.remote, q, Begin(n.local, q).0, NO_TROUBLE);
  }

  // ------------------------------------------------------------ stale frames

  /** Every handle is under the index of the interface it writes to. */
  predicate HandlesInv(n: Node) {
    forall i :: i in n.handles ==> n.handles[i] == i
  }

  lemma AddRemoteKeepsHandles(n: Node, d: WireDef, host: string, f: Faults)
    requires HandlesInv(n)
    ensures HandlesInv(AddRemote(n, d, host, f).0)
  {
    hide Recorded, Upsert, StatusOf, Listed;
    EnsureNoStaleTouchesNoWire(n, d, f);
  }

  lemma OpKeepsHandles(n: Node, op: Op)
    requires HandlesInv(n)
    ensures HandlesInv(Do(n, op))
  {
    hide AddRemote, Remove;
    match op
    case OpAddRemote(d, host, f) => AddRemoteKeepsHandles(n, d, host, f);
    case OpRemove(w, stuck) => RemoveKeepsWires(n, w, stuck);
    case _ =>
  }

  /** No wire but that of k has the interface with the index. */
  ghost predicate Belongs(n: Node, id: int, k: Key) {
    id < n.nextIndex && forall j :: j in n.wires && n.wires[j].ifaceId == id ==> j == k
  }

  /** Another wire takes over the interface with the index. */
  predicate TakesOver(n: Node, op: Op, id: int, k: Key) {
    op.OpAddLocal? && KeyOfDef(op.d) != k && op.d.hostIface in n.links && n.links[op.d.hostIface] == id
  }

  predicate NoneTakesOver(n: Node, ops: seq<Op>, id: int, k: Key) {
    ops == [] || (NoneTakesOver(n, ops[..|ops| - 1], id, k) && !TakesOver(Run(n, ops[..|ops| - 1]), ops[|ops| - 1], id, k))
  }

  lemma AddRemoteKeepsBelonging(n: Node, d: WireDef, host: string, f: Faults, id: int, k: Key)
    requires Belongs(n, id, k)
    ensures Belongs(AddRemote(n, d, host, f).0, id, k)
  {
    hide Recorded, Upsert, StatusOf, Listed;
    EnsureNoStaleTouchesNoWire(n, d, f);
  }

  lemma OpKeepsBelonging(n: Node, op: Op, id: int, k: Key)
    requires Belongs(n, id, k) && !TakesOver(n, op, id, k)
    ensures Belongs(Do(n, op), id, k)
  {
    hide AddRemote, Remove;
    match op
    case OpAddRemote(d, host, f) => AddRemoteKeepsBelonging(n, d, host, f, id, k);
    case OpRemove(w, stuck) => RemoveKeepsWires(n, w, stuck);
    case _ =>
  }

  lemma {:induction false} RunKeepsBelonging(n: Node, ops: seq<Op>, id: int, k: Key)
    requires HandlesInv(n) && Belongs(n, id, k) && NoneTakesOver(n, ops, id, k)
    ensures HandlesInv(Run(n, ops)) && Belongs(Run(n, ops), id, k)
  {
    hide HandlesInv, Belongs, TakesOver, Do;
    if ops != [] {
      RunKeepsBelonging(n, ops[..|ops| - 1], id, k);
      OpKeepsHandles(Run(n, ops[..|ops| - 1]), ops[|ops| - 1]);
      OpKeepsBelonging(Run(n, ops[..|ops| - 1]), ops[|ops| - 1], id, k);
    }
  }

  /** A frame sent on an index that was a wire's at some time, whatever became of it, is
      dropped or written to that interface; it never reaches the interface of another
      wire, as indices are not given out again. */
  lemma StaleFrameHitsNobodyElse(own: Owners, net: Network, ip: string, n: Node, k: Key, ops: seq<Op>, w: Wire)
    requires Inv(own, n) && HandlesInv(n) && k in n.wires && w.peerIfaceId == n.wires[k].ifaceId && w.peerNodeIp == ip
    requires NoneTakesOver(n, ops, n.wires[k].ifaceId, k) && ip in net && net[ip] == Run(n, ops)
    ensures Deliver(net, w) == Dropped || Deliver(net, w) == At(ip, w.peerIfaceId)
    ensures forall j :: j in net[ip].wires && net[ip].wires[j].ifaceId == w.peerIfaceId ==> j == k
  {
    assert Belongs(n, n.wires[k].ifaceId, k);
    RunKeepsBelonging(n, ops, n.wires[k].ifaceId, k);
  }
}
