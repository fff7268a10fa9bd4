/** Making a link between two nodes: the plugin on one creates its veth, has the peer's
    daemon create the far end, and registers its own, while both nodes go on with
    whatever else they do; frames then cross by index. */
module Handshake {
  import opened WireRecords
  import opened WireNode
  import opened WireInvariants
  import opened WireTheorems

  /** One end of a link, as the two pods' objects describe it. */
  datatype End = End(podName: string, topoNs: string, netNs: string, podIface: string, podIp: string, nodeIp: string)

  /** A link to be made from `here`, and the names given to the new interfaces. */
  datatype Request = Request(uid: int, here: End, there: End, hostA: string, hostB: string)

  function EndKey(e: End, uid: int): Key {
    Key(e.netNs, uid)
  }

  function Near(q: Request): Key {
    EndKey(q.here, q.uid)
  }

  function Far(q: Request): Key {
    EndKey(q.there, q.uid)
  }

  function IfaceOf(e: End): PodIface {
    PodIface(e.netNs, e.podIface)
  }

  /** What the peer's daemon is asked for: index and node are those of this end. */
  function RemoteDef(q: Request, index: int): WireDef {
    WireDef(q.uid, q.there.topoNs, "", q.there.podIp, q.there.podName, q.there.podIface, q.there.netNs, index, q.here.nodeIp)
  }

  /** What this node's daemon is asked for, with the index the peer answered. */
  function LocalDef(q: Request, index: int): WireDef {
    WireDef(q.uid, q.here.topoNs, q.hostA, q.here.podIp, q.here.podName, q.here.podIface, q.here.netNs, index, q.there.nodeIp)
  }

  datatype Pair = Pair(local: Node, remote: Node)

  // ------------------------------------------------------------- the steps

  /** First the plugin makes the veth of this end. */
  function Begin(a: Node, q: Request): (Node, bool) {
    if IfaceOf(q.here) in a.pods || q.hostA in a.links then (a, false)
    else (MakeVeth(a, IfaceOf(q.here), q.hostA), true)
  }

  /** What may go wrong with the call to the peer. */
  datatype Trouble = Trouble(noDial: bool, remote: Faults)

  const NO_TROUBLE := Trouble(false, NO_FAULTS)

  /** Then it looks its index up and has the peer make the other end. */
  function AskPeer(a: Node, b: Node, q: Request, t: Trouble): (Node, Result) {
    if t.noDial || q.hostA !in a.links then (b, Err)
    else AddRemote(b, RemoteDef(q, a.links[q.hostA]), q.hostB, t.remote)
  }

  /** What the two nodes do between the steps: before the call to the peer, and between
      that and the registration. */
  datatype Meanwhile = Meanwhile(a1: seq<Op>, b1: seq<Op>, a2: seq<Op>, b2: seq<Op>)

  const NOTHING := Meanwhile([], [], [], [])

  /** The nodes when the peer is called, and after it. */
  function Asking(n: Pair, q: Request, w: Meanwhile): Pair {
    Pair(Run(Begin(n.local, q).0, w.a1), Run(n.remote, w.b1))
  }

  function Asked(n: Pair, q: Request, w: Meanwhile, t: Trouble): (Pair, Result) {
    var m := Asking(n, q, w);
    var (b, r) := AskPeer(m.local, m.remote, q, t);
    (Pair(m.local, b), r)
  }

  /** The nodes when this end is registered. */
  function Registering(n: Pair, q: Request, w: Meanwhile, t: Trouble): Pair {
    var m := Asked(n, q, w, t).0;
    Pair(Run(m.local, w.a2), Run(m.remote, w.b2))
  }

  /** The whole exchange, and whether it succeeds. */
  function Exchange(n: Pair, q: Request, w: Meanwhile, t: Trouble): (Pair, bool) {
    if !Begin(n.local, q).1 then (n, false)
    else
      var (m, r) := Asked(n, q, w, t);
      if r.Err? then (m, false)
      else
        var p := Registering(n, q, w, t);
        var (a, l) := AddLocal(p.local, LocalDef(q, r.index));
        (Pair(a, p.remote), l.Ok?)
  }

  // ------------------------------------------------------- what others may do

  /** The operation makes, or takes over, an interface of that name. */
  predicate Names(op: Op, host: string) {
    match op
    case OpMakeVeth(_, h) => h == host
    case OpAddLocal(d) => d.hostIface == host
    case OpAddRemote(_, h, _) => h == host
    case _ => false
  }

  predicate NoneNames(ops: seq<Op>, host: string) {
    forall i :: 0 <= i < |ops| ==> !Names(ops[i], host)
  }

  /** Nobody else uses the new interface's name on this node, and nobody else makes or
      deletes the far end between the call to the peer and the registration. */
  predicate Serialised(own: Owners, n: Pair, q: Request, w: Meanwhile, t: Trouble) {
    && LegalRun(own, Begin(n.local, q).0, w.a1) && NoneNames(w.a1, q.hostA)
    && LegalRun(own, n.remote, w.b1)
    && LegalRun(own, Asked(n, q, w, t).0.local, w.a2) && NoneNames(w.a2, q.hostA)
    && LegalRun(own, Asked(n, q, w, t).0.remote, w.b2) && NoneConcerns(w.b2, Far(q))
  }

  predicate EndOwned(own: Owners, e: End) {
    own(e.netNs) == (e.topoNs, e.podName)
  }

  // --------------------------------------------------- the reserved interface

  /** The index is that of the interface called host, if of any, and no wire has it. */
  ghost predicate Reserved(n: Node, host: string, id: int) {
    && id < n.nextIndex
    && (host in n.links ==> n.links[host] == id)
    && (forall h :: h in n.links && n.links[h] == id ==> h == host)
    && (forall k :: k in n.wires ==> n.wires[k].ifaceId != id)
    && (forall w :: w in n.limbo ==> w.ifaceId != id)
  }

  lemma VethIsReserved(n: Node, p: PodIface, host: string)
    requires IndicesInv(n) && p !in n.pods && host !in n.links
    ensures Reserved(MakeVeth(n, p, host), host, n.nextIndex)
  {
  }

  /** Nothing is added but, perhaps, one interface and one wire on other indices. */
  lemma ReservedFrame(n: Node, m: Node, host: string, id: int)
    requires Reserved(n, host, id) && n.nextIndex <= m.nextIndex
    requires forall h :: h in m.links ==> (h in n.links && m.links[h] == n.links[h]) || (h != host && m.links[h] >= n.nextIndex)
    requires forall k :: k in m.wires ==> (k in n.wires && m.wires[k].ifaceId == n.wires[k].ifaceId) || m.wires[k].ifaceId != id
    requires forall w :: w in m.limbo ==> w in n.limbo || exists k :: k in n.wires && n.wires[k] == w
    ensures Reserved(m, host, id)
  {
  }

  lemma EnsureNoStaleKeepsReserved(n: Node, d: WireDef, f: Faults, host: string, id: int)
    requires Reserved(n, host, id)
    ensures Reserved(EnsureNoStale(n, d, f).0, host, id)
  {
    hide Recorded;
    ReservedFrame(n, EnsureNoStale(n, d, f).0, host, id);
  }

  lemma MakeVethKeepsReserved(n: Node, p: PodIface, h: string, host: string, id: int)
    requires Reserved(n, host, id) && p !in n.pods && h !in n.links && h != host
    ensures Reserved(MakeVeth(n, p, h), host, id)
  {
    ReservedFrame(n, MakeVeth(n, p, h), host, id);
  }

  lemma AdoptKeepsReserved(n: Node, w: Wire, host: string, id: int)
    requires Reserved(n, host, id) && w.ifaceId != id
    ensures Reserved(Adopt(n, w), host, id)
  {
    hide Upsert, StatusOf, Listed;
    ReservedFrame(n, Adopt(n, w), host, id);
  }

  lemma UpdateWireKeepsReserved(n: Node, k: Key, peerIfaceId: int, host: string, id: int)
    requires Reserved(n, host, id) && k in n.wires
    ensures Reserved(UpdateWire(n, k, peerIfaceId), host, id)
  {
    hide Upsert, StatusOf, Listed;
    ReservedFrame(n, UpdateWire(n, k, peerIfaceId), host, id);
  }

  lemma AddRemoteKeepsReserved(n: Node, d: WireDef, h: string, f: Faults, host: string, id: int)
    requires Reserved(n, host, id) && h != host
    ensures Reserved(AddRemote(n, d, h, f).0, host, id)
  {
    var p, n1 := PodIface(d.netNs, d.podIface), EnsureNoStale(n, d, f).0;
    EnsureNoStaleKeepsReserved(n, d, f, host, id);
    hide EnsureNoStale, Adopt, UpdateWire;
    if KeyOfDef(d) in n.wires {
      UpdateWireKeepsReserved(n, KeyOfDef(d), d.peerIfaceId, host, id);
    } else if p !in n1.pods && h !in n1.links {
      MakeVethKeepsReserved(n1, p, h, host, id);
      var m := MakeVeth(n1, p, h);
      AdoptKeepsReserved(m, CreateGWire(n1.nextIndex, h, m.nextStop, d), host, id);
    }
  }

  lemma AddLocalKeepsReserved(n: Node, d: WireDef, host: string, id: int)
    requires Reserved(n, host, id) && d.hostIface != host
    ensures Reserved(AddLocal(n, d).0, host, id)
  {
    hide Adopt;
    if Opens(n, d.hostIface) {
      AdoptKeepsReserved(n, CreateGWire(n.links[d.hostIface], d.hostIface, n.nextStop, d).(originator := HostCreated, originatorIp := "unknown"), host, id);
    }
  }

  lemma RemoveKeepsReserved(n: Node, w: Wire, stuck: bool, host: string, id: int)
    requires Reserved(n, host, id)
    ensures Reserved(Remove(n, w, stuck), host, id)
  {
    RemoveShrinks(n, w, stuck);
    DropShrinks(n, WithIndex(n, w.ifaceId));
    hide Remove, Drop, WithIndex;
    ReservedFrame(n, Remove(n, w, stuck), host, id);
  }

  lemma OpKeepsReserved(n: Node, op: Op, host: string, id: int)
    requires Reserved(n, host, id) && !Names(op, host)
    ensures Reserved(Do(n, op), host, id)
  {
    hide Reserved, AddRemote, AddLocal, Remove;
    match op
    case OpMakeVeth(p, h) => if p !in n.pods && h !in n.links { MakeVethKeepsReserved(n, p, h, host, id); }
    case OpAddRemote(d, h, f) => AddRemoteKeepsReserved(n, d, h, f, host, id);
    case OpAddLocal(d) => AddLocalKeepsReserved(n, d, host, id);
    case OpRemove(w, stuck) => RemoveKeepsReserved(n, w, stuck, host, id);
    case _ => SmallOpKeepsReserved(n, op, host, id);
  }

  lemma SmallOpKeepsReserved(n: Node, op: Op, host: string, id: int)
    requires Reserved(n, host, id) && (op.OpWireDown? || op.OpExtract? || op.OpPurge? || op.OpLost? || op.OpDeaf?)
    ensures Reserved(Do(n, op), host, id)
  {
    hide WithoutPod, Listed;
    ReservedFrame(n, Do(n, op), host, id);
  }

  lemma {:induction false} RunKeepsReserved(n: Node, ops: seq<Op>, host: string, id: int)
    requires Reserved(n, host, id) && NoneNames(ops, host)
    ensures Reserved(Run(n, ops), host, id)
  {
    hide Reserved, Names, Do;
    if ops != [] {
      RunKeepsReserved(n, ops[..|ops| - 1], host, id);
      OpKeepsReserved(Run(n, ops[..|ops| - 1]), ops[|ops| - 1], host, id);
    }
  }

  // ------------------------------------------------------ while both ends stay

  /** Same interface and same peer. */
  predicate SameRoute(v: Wire, w: Wire) {
    v.ifaceId == w.ifaceId && v.peerIfaceId == w.peerIfaceId && v.peerNodeIp == w.peerNodeIp
  }

  lemma AddRemoteKeepsRoute(own: Owners, n: Node, d: WireDef, host: string, f: Faults, k: Key)
    requires TableInv(n) && OwnersInv(own, n) && Owned(own, d) && KeyOfDef(d) != k && k in n.wires
    ensures var m := AddRemote(n, d, host, f).0; k in m.wires && m.wires[k] == n.wires[k]
  {
    AddRemoteOutcome(own, n, d, host, f);
  }

  lemma AddLocalKeepsRoute(n: Node, d: WireDef, k: Key)
    requires KeyOfDef(d) != k && k in n.wires
    ensures var m := AddLocal(n, d).0; k in m.wires && m.wires[k] == n.wires[k]
  {
  }

  lemma RemoveKeepsRoute(n: Node, w: Wire, stuck: bool)
    ensures Remove(n, w, stuck).wires == n.wires
  {
  }

  /** All but what bringing it down changes. */
  predicate SameButReady(v: Wire, w: Wire) {
    v.(ready := w.ready) == w
  }

  lemma WireDownKeepsRoute(n: Node, j: Key, k: Key)
    requires k in n.wires
    ensures k in WireDown(n, j).wires && SameButReady(WireDown(n, j).wires[k], n.wires[k])
  {
  }

  lemma OpKeepsRoute(own: Owners, n: Node, op: Op, k: Key)
    requires TableInv(n) && OwnersInv(own, n) && Legal(own, n, op) && !Concerns(op, k) && k in n.wires
    ensures k in Do(n, op).wires && SameButReady(Do(n, op).wires[k], n.wires[k])
  {
    hide AddRemote, AddLocal, Remove, WireDown, TableInv, OwnersInv;
    match op
    case OpAddRemote(d, host, f) => AddRemoteKeepsRoute(own, n, d, host, f, k);
    case OpRemove(w, stuck) => RemoveKeepsRoute(n, w, stuck);
    case OpWireDown(j) => WireDownKeepsRoute(n, j, k);
    case OpAddLocal(d) => AddLocalKeepsRoute(n, d, k);
    case _ =>
  }

  lemma {:induction false} RouteStays(own: Owners, n: Node, ops: seq<Op>, k: Key)
    requires Inv(own, n) && LegalRun(own, n, ops) && NoneConcerns(ops, k) && k in n.wires
    ensures TableInv(Run(n, ops)) && k in Run(n, ops).wires
    ensures SameRoute(Run(n, ops).wires[k], n.wires[k]) && SameButReady(Run(n, ops).wires[k], n.wires[k])
  {
    RunKeepsInv(own, n, ops);
    if ops != [] {
      var front := ops[..|ops| - 1];
      RouteStays(own, n, front, k);
      RunKeepsInv(own, n, front);
      OpKeepsRoute(own, Run(n, front), ops[|ops| - 1], k);
    }
  }

  // ----------------------------------------------------------- invariants

  lemma BeginKeepsInv(own: Owners, n: Node, q: Request)
    requires Inv(own, n)
    ensures Inv(own, Begin(n, q).0)
    ensures Begin(n, q).1 ==> Reserved(Begin(n, q).0, q.hostA, n.nextIndex)
  {
    if Begin(n, q).1 {
      VethIsReserved(n, IfaceOf(q.here), q.hostA);
      OpKeepsInv(own, n, OpMakeVeth(IfaceOf(q.here), q.hostA));
    }
  }

  lemma AskPeerKeepsInv(own: Owners, a: Node, b: Node, q: Request, t: Trouble)
    requires Inv(own, b) && EndOwned(own, q.there)
    ensures Inv(own, AskPeer(a, b, q, t).0)
  {
    hide Inv, AddRemote;
    if !t.noDial && q.hostA in a.links {
      OpKeepsInv(own, b, OpAddRemote(RemoteDef(q, a.links[q.hostA]), q.hostB, t.remote));
    }
  }

  lemma ReservedIsFresh(n: Node, q: Request, id: int, index: int)
    requires Reserved(n, q.hostA, id)
    ensures FreshFor(n, LocalDef(q, index))
  {
  }

  /** The nodes after each step, and the interface that is kept for this end. */
  lemma StepsKeepInv(own: Owners, n: Pair, q: Request, w: Meanwhile, t: Trouble)
    requires Inv(own, n.local) && Inv(own, n.remote) && EndOwned(own, q.there) && Serialised(own, n, q, w, t) && Begin(n.local, q).1
    ensures Inv(own, Asking(n, q, w).local) && Inv(own, Asking(n, q, w).remote)
    ensures Inv(own, Asked(n, q, w, t).0.local) && Inv(own, Asked(n, q, w, t).0.remote)
    ensures Inv(own, Registering(n, q, w, t).local) && Inv(own, Registering(n, q, w, t).remote)
    ensures Reserved(Asking(n, q, w).local, q.hostA, n.local.nextIndex)
    ensures Reserved(Registering(n, q, w, t).local, q.hostA, n.local.nextIndex)
  {
    hide Inv, Reserved, LegalRun, NoneNames, NoneConcerns, AskPeer, Begin;
    var a1, m := Begin(n.local, q).0, Asking(n, q, w);
    BeginKeepsInv(own, n.local, q);
    RunKeepsInv(own, a1, w.a1);
    RunKeepsReserved(a1, w.a1, q.hostA, n.local.nextIndex);
    RunKeepsInv(own, n.remote, w.b1);
    AskPeerKeepsInv(own, m.local, m.remote, q, t);
    var p := Asked(n, q, w, t).0;
    RunKeepsInv(own, p.local, w.a2);
    RunKeepsReserved(p.local, w.a2, q.hostA, n.local.nextIndex);
    RunKeepsInv(own, p.remote, w.b2);
  }

  /** The exchange keeps the invariants of both nodes, wherever it fails and whatever
      happens between its steps. */
  lemma ExchangeKeepsInv(own: Owners, n: Pair, q: Request, w: Meanwhile, t: Trouble)
    requires Inv(own, n.local) && Inv(own, n.remote) && EndOwned(own, q.here) && EndOwned(own, q.there) && Serialised(own, n, q, w, t)
    ensures Inv(own, Exchange(n, q, w, t).0.local) && Inv(own, Exchange(n, q, w, t).0.remote)
  {
    hide Inv, Reserved, Serialised, Asked, Registering, Begin, AddLocal;
    if Begin(n.local, q).1 {
      StepsKeepInv(own, n, q, w, t);
      var r, p := Asked(n, q, w, t).1, Registering(n, q, w, t);
      if r.Ok? {
        ReservedIsFresh(p.local, q, n.local.nextIndex, r.index);
        OpKeepsInv(own, p.local, OpAddLocal(LocalDef(q, r.index)));
      }
    }
  }

  // ------------------------------------------------------- what it achieves

  predicate Tracks(n: Node, e: End, uid: int) {
    EndKey(e, uid) in n.wires
  }

  function WireOf(n: Node, e: End, uid: int): Wire
    requires Tracks(n, e, uid)
  {
    n.wires[EndKey(e, uid)]
  }

  /** The end names the other's interface, and the node at address ip. */
  predicate PointsTo(w: Wire, v: Wire, ip: string) {
    w.peerIfaceId == v.ifaceId && w.peerNodeIp == ip
  }

  lemma AskedAnswers(n: Node, q: Request, a: Node, t: Trouble)
    requires TableInv(n) && AskPeer(a, n, q, t).1.Ok?
    ensures var (m, r) := AskPeer(a, n, q, t);
      && q.hostA in a.links && Tracks(m, q.there, q.uid) && WireOf(m, q.there, q.uid).ifaceId == r.index
      && WireOf(m, q.there, q.uid).peerIfaceId == a.links[q.hostA] && WireOf(m, q.there, q.uid).ready
      && WireOf(m, q.there, q.uid).peerNodeIp == if Tracks(n, q.there, q.uid) then WireOf(n, q.there, q.uid).peerNodeIp else q.here.nodeIp
  {
    hide Recorded, Upsert, StatusOf, Listed;
  }

  lemma RegisteredEnd(n: Node, q: Request, index: int)
    requires AddLocal(n, LocalDef(q, index)).1.Ok?
    ensures var m := AddLocal(n, LocalDef(q, index)).0;
      && q.hostA in n.links && Tracks(m, q.here, q.uid) && WireOf(m, q.here, q.uid).ifaceId == n.links[q.hostA]
      && WireOf(m, q.here, q.uid).peerIfaceId == index && WireOf(m, q.here, q.uid).peerNodeIp == q.there.nodeIp && WireOf(m, q.here, q.uid).ready
      && AddLocal(n, LocalDef(q, index)).1 == Ok(WireOf(m, q.here, q.uid).ifaceId)
  {
    hide Upsert, StatusOf, Listed;
  }

  /** Whether the far end has, once it was asked for, this node's address: it was not
      tracked when the peer was called, or had that address already. */
  predicate FarKnows(n: Pair, q: Request, w: Meanwhile) {
    var b := Asking(n, q, w).remote;
    Tracks(b, q.there, q.uid) ==> WireOf(b, q.there, q.uid).peerNodeIp == q.here.nodeIp
  }

  lemma ExchangeParts(n: Pair, q: Request, w: Meanwhile, t: Trouble)
    requires Exchange(n, q, w, t).1
    ensures Begin(n.local, q).1 && Asked(n, q, w, t).1.Ok?
    ensures AskPeer(Asking(n, q, w).local, Asking(n, q, w).remote, q, t) == (Asked(n, q, w, t).0.remote, Asked(n, q, w, t).1)
    ensures var (a, l) := AddLocal(Registering(n, q, w, t).local, LocalDef(q, Asked(n, q, w, t).1.index));
      l.Ok? && Exchange(n, q, w, t).0 == Pair(a, Registering(n, q, w, t).remote)
    ensures Registering(n, q, w, t).remote == Run(Asked(n, q, w, t).0.remote, w.b2)
  {
    hide AskPeer, AddLocal, Begin, Run;
  }

  /** After a successful exchange, whatever happened between its steps, both ends are
      tracked and each has the other's index; this end also has the peer's address. */
  lemma ExchangeConnects(own: Owners, n: Pair, q: Request, w: Meanwhile, t: Trouble)
    requires Inv(own, n.local) && Inv(own, n.remote) && EndOwned(own, q.there) && Serialised(own, n, q, w, t)
    requires Exchange(n, q, w, t).1
    ensures var m := Exchange(n, q, w, t).0; Tracks(m.local, q.here, q.uid) && Tracks(m.remote, q.there, q.uid)
    ensures var m := Exchange(n, q, w, t).0; var u, v := WireOf(m.local, q.here, q.uid), WireOf(m.remote, q.there, q.uid);
      u.ready && PointsTo(u, v, q.there.nodeIp) && v.peerIfaceId == u.ifaceId
    ensures var m := Exchange(n, q, w, t).0;
      WireOf(m.remote, q.there, q.uid).peerNodeIp == q.here.nodeIp <==> FarKnows(n, q, w)
  {
    hide Inv, Serialised, Exchange, Asked, Registering, Asking, AskPeer, AddLocal;
    ExchangeParts(n, q, w, t);
    StepsKeepInv(own, n, q, w, t);
    var m, r, p := Asking(n, q, w), Asked(n, q, w, t).1, Registering(n, q, w, t);
    TableOf(own, m.remote);
    AskedAnswers(m.remote, q, m.local, t);
    RegisteredEnd(p.local, q, r.index);
    FarEndStays(own, n, q, w, t);
  }

  lemma TableOf(own: Owners, n: Node)
    requires Inv(own, n)
    ensures TableInv(n)
  {
  }

  lemma FarEndStays(own: Owners, n: Pair, q: Request, w: Meanwhile, t: Trouble)
    requires Serialised(own, n, q, w, t) && Inv(own, Asked(n, q, w, t).0.remote) && Tracks(Asked(n, q, w, t).0.remote, q.there, q.uid)
    ensures Tracks(Registering(n, q, w, t).remote, q.there, q.uid)
    ensures SameRoute(WireOf(Registering(n, q, w, t).remote, q.there, q.uid), WireOf(Asked(n, q, w, t).0.remote, q.there, q.uid))
    ensures SameButReady(WireOf(Registering(n, q, w, t).remote, q.there, q.uid), WireOf(Asked(n, q, w, t).0.remote, q.there, q.uid))
  {
    hide Inv, LegalRun, NoneConcerns, Asked;
    RouteStays(own, Asked(n, q, w, t).0.remote, w.b2, Far(q));
  }

  // -------------------------------------------------------------- delivery

  /** The nodes by address. */
  type Network = map<string, Node>

  datatype Arrival = At(node: string, ifaceId: int) | Dropped

  /** Where a frame goes that was captured at w's interface: the node at w's peer
      address writes it to the handle it has under w's peer index. */
  function Deliver(net: Network, w: Wire): Arrival {
    if w.peerNodeIp !in net then Dropped
    else
      var n := net[w.peerNodeIp];
      if w.peerIfaceId in n.handles then At(w.peerNodeIp, n.handles[w.peerIfaceId]) else Dropped
  }

  /** A frame captured at one end of a connected link is written to the other end's
      interface, which is no other wire's. */
  lemma DeliveredToTheOtherEnd(net: Network, w: Wire, ip: string, k: Key)
    requires ip in net && TableInv(net[ip]) && k in net[ip].wires
    requires PointsTo(w, net[ip].wires[k], ip)
    ensures Deliver(net, w) == At(ip, net[ip].wires[k].ifaceId)
    ensures forall j :: j in net[ip].wires && net[ip].wires[j].ifaceId == net[ip].wires[k].ifaceId ==> j == k
  {
  }

  /** Frames of either wire reach the other, and no other wire. */
  predicate Carries(net: Network, a: string, j: Key, b: string, k: Key) {
    && a in net && b in net && j in net[a].wires && k in net[b].wires
    && Deliver(net, net[a].wires[j]) == At(b, net[b].wires[k].ifaceId)
    && Deliver(net, net[b].wires[k]) == At(a, net[a].wires[j].ifaceId)
    && (forall i :: i in net[b].wires && net[b].wires[i].ifaceId == net[b].wires[k].ifaceId ==> i == k)
    && (forall i :: i in net[a].wires && net[a].wires[i].ifaceId == net[a].wires[j].ifaceId ==> i == j)
  }

  /** The two nodes of a link, a while after it was made. */
  function Later(net: Network, m: Pair, q: Request, opsA: seq<Op>, opsB: seq<Op>): Network {
    net[q.here.nodeIp := Run(m.local, opsA)][q.there.nodeIp := Run(m.remote, opsB)]
  }

  /** The two ends are tracked and know each other. */
  predicate Connected(m: Pair, q: Request) {
    && Tracks(m.local, q.here, q.uid) && Tracks(m.remote, q.there, q.uid)
    && PointsTo(WireOf(m.local, q.here, q.uid), WireOf(m.remote, q.there, q.uid), q.there.nodeIp)
    && PointsTo(WireOf(m.remote, q.there, q.uid), WireOf(m.local, q.here, q.uid), q.here.nodeIp)
  }

  /** Operations that do not take out or make anew either end. */
  predicate Untouched(own: Owners, m: Pair, q: Request, opsA: seq<Op>, opsB: seq<Op>) {
    && LegalRun(own, m.local, opsA) && NoneConcerns(opsA, Near(q))
    && LegalRun(own, m.remote, opsB) && NoneConcerns(opsB, Far(q))
  }

  lemma CarriesLater(own: Owners, net: Network, m: Pair, q: Request, opsA: seq<Op>, opsB: seq<Op>)
    requires Inv(own, m.local) && Inv(own, m.remote) && q.here.nodeIp != q.there.nodeIp
    requires Connected(m, q) && Untouched(own, m, q, opsA, opsB)
    ensures Carries(Later(net, m, q, opsA, opsB), q.here.nodeIp, Near(q), q.there.nodeIp, Far(q))
  {
    hide Inv, LegalRun, NoneConcerns, Run;
    var j, k := Near(q), Far(q);
    RouteStays(own, m.local, opsA, j);
    RouteStays(own, m.remote, opsB, k);
    var later := Later(net, m, q, opsA, opsB);
    DeliveredToTheOtherEnd(later, later[q.here.nodeIp].wires[j], q.there.nodeIp, k);
    DeliveredToTheOtherEnd(later, later[q.there.nodeIp].wires[k], q.here.nodeIp, j);
  }

  /** A link that was made carries frames both ways, whatever happened between the steps
      of the exchange and whatever happens afterwards, until one of its wires is taken
      out or made anew; provided the other end was new or knew this node's address. */
  lemma LinkCarriesFrames(own: Owners, net: Network, n: Pair, q: Request, w: Meanwhile, t: Trouble, opsA: seq<Op>, opsB: seq<Op>)
    requires Inv(own, n.local) && Inv(own, n.remote) && EndOwned(own, q.here) && EndOwned(own, q.there)
    requires q.here.nodeIp != q.there.nodeIp && Serialised(own, n, q, w, t)
    requires Exchange(n, q, w, t).1 && FarKnows(n, q, w)
    requires Untouched(own, Exchange(n, q, w, t).0, q, opsA, opsB)
    ensures Connected(Exchange(n, q, w, t).0, q)
    ensures Carries(Later(net, Exchange(n, q, w, t).0, q, opsA, opsB), q.here.nodeIp, Near(q), q.there.nodeIp, Far(q))
  {
    hide Inv, Serialised, Exchange, FarKnows, Untouched, Carries, Later;
    ExchangeKeepsInv(own, n, q, w, t);
    ExchangeConnects(own, n, q, w, t);
    CarriesLater(own, net, Exchange(n, q, w, t).0, q, opsA, opsB);
  }

  // ------------------------------------------------------ when it succeeds

  /** The far node can make its end: the interface is not there, or it is the veth of
      an attempt that was never completed, which is cleared away first. */
  predicate Clear(b: Node, e: End, uid: int, host: string) {
    var p := IfaceOf(e);
    if p in b.pods then !Recorded(b, EndKey(e, uid)) && b.pods[p].veth && (host !in b.links || host == b.pods[p].hostIface)
    else host !in b.links
  }

  /** Without trouble, and with nothing in between, the exchange succeeds exactly if
      this end's two interfaces are not there yet, the new one can be opened, and the
      other end is tracked or can be made. */
  lemma ExchangeSucceedsIff(n: Pair, q: Request)
    ensures Exchange(n, q, NOTHING, NO_TROUBLE).1 <==>
      && IfaceOf(q.here) !in n.local.pods && q.hostA !in n.local.links && q.hostA !in n.local.deaf
      && (Tracks(n.remote, q.there, q.uid) || Clear(n.remote, q.there, q.uid, q.hostB))
  {
    hide Upsert, StatusOf, Listed;
    if Begin(n.local, q).1 { AskedSucceedsIff(Begin(n.local, q).0, n.remote, q); }
  }

  lemma AskedSucceedsIff(a: Node, b: Node, q: Request)
    requires q.hostA in a.links
    ensures AskPeer(a, b, q, NO_TROUBLE).1.Ok? <==> Tracks(b, q.there, q.uid) || Clear(b, q.there, q.uid, q.hostB)
  {
    hide Upsert, StatusOf, Listed;
  }

  // ------------------------------------------------------ links made again

  /** The exchange of a pod that comes back, some time after its link was made. */
  predicate ComesBack(q: Request, again: Request) {
    again.uid == q.uid && again.there == q.there && again.here.nodeIp == q.here.nodeIp
  }

  /** A peer that comes back on its old node finds the other end with its address, so
      the remade link carries frames both ways again. */
  lemma RemadeOnSameNode(own: Owners, net: Network, m: Pair, q: Request, opsA: seq<Op>, opsB: seq<Op>,
                         again: Request, w: Meanwhile, t: Trouble, moreA: seq<Op>, moreB: seq<Op>)
    requires Inv(own, m.local) && Inv(own, m.remote) && Connected(m, q) && ComesBack(q, again)
    requires EndOwned(own, again.here) && EndOwned(own, q.there) && q.here.nodeIp != q.there.nodeIp
    requires LegalRun(own, m.local, opsA) && LegalRun(own, m.remote, opsB) && NoneConcerns(opsB, Far(q))
    requires var n := Pair(Run(m.local, opsA), Run(m.remote, opsB));
      && Serialised(own, n, again, w, t) && NoneConcerns(w.b1, Far(q)) && Exchange(n, again, w, t).1
      && Untouched(own, Exchange(n, again, w, t).0, again, moreA, moreB)
    ensures var n := Pair(Run(m.local, opsA), Run(m.remote, opsB));
      Carries(Later(net, Exchange(n, again, w, t).0, again, moreA, moreB), again.here.nodeIp, Near(again), q.there.nodeIp, Far(q))
  {
    hide Inv, Exchange, Untouched, Carries, Later, LegalRun, NoneConcerns;
    var n := Pair(Run(m.local, opsA), Run(m.remote, opsB));
    RunKeepsInv(own, m.local, opsA);
    RunKeepsInv(own, m.remote, opsB);
    RouteStays(own, m.remote, opsB, Far(q));
    RouteStays(own, n.remote, w.b1, Far(q));
    LinkCarriesFrames(own, net, n, again, w, t, moreA, moreB);
  }

  /** A peer that comes back on another node is missed: frames from the other end still
      go to the address it left. */
  lemma MovedPeerIsMissed(own: Owners, n: Pair, q: Request, w: Meanwhile, t: Trouble, net: Network, id: int)
    requires Inv(own, n.local) && Inv(own, n.remote) && EndOwned(own, q.there) && Serialised(own, n, q, w, t)
    requires Exchange(n, q, w, t).1 && !FarKnows(n, q, w)
    ensures var m := Exchange(n, q, w, t).0;
      Tracks(m.remote, q.there, q.uid) && Deliver(net, WireOf(m.remote, q.there, q.uid)) != At(q.here.nodeIp, id)
  {
    hide Inv, Serialised, Exchange, FarKnows;
    ExchangeConnects(own, n, q, w, t);
  }
}
