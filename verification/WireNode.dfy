/** One node's daemon: the wire table, its persisted records, and the interfaces of
    the node, with every operation as a function on their value. */
module WireNode {
  import opened WireRecords

  /** A wire is found by the netns of its pod and the uid of its link. */
  datatype Key = Key(netNs: string, uid: int)

  datatype Originator = HostCreated | PeerCreated

  /** `stop` names the stop channel of the wire's receive thread. */
  datatype Wire = Wire(
    uid: int, topoNs: string,
    ifaceId: int, ifaceName: string,
    podIp: string, podName: string, podIface: string, netNs: string,
    peerIfaceId: int, peerNodeIp: string,
    ready: bool, originator: Originator, originatorIp: string, stop: nat)

  /** What the plugin or the peer asks for. */
  datatype WireDef = WireDef(
    uid: int, topoNs: string, hostIface: string,
    podIp: string, podName: string, podIface: string, netNs: string,
    peerIfaceId: int, peerNodeIp: string)

  function CreateGWire(ifaceId: int, ifaceName: string, stop: nat, def: WireDef): Wire {
    Wire(def.uid, def.topoNs, ifaceId, ifaceName, def.podIp, def.podName, def.podIface, def.netNs,
         def.peerIfaceId, def.peerNodeIp, true, PeerCreated, def.peerNodeIp, stop)
  }

  function StatusOf(node: string, w: Wire): Record {
    Record(node, w.uid, w.topoNs, w.netNs, w.podName, w.podIp, w.podIface, w.ifaceName, w.peerIfaceId, w.peerNodeIp)
  }

  function DefOf(r: Record): WireDef {
    WireDef(r.linkId, r.topoNs, r.hostIface, r.podIp, r.podName, r.podIface, r.netNs, r.peerIfaceId, r.peerNodeIp)
  }

  function KeyOf(w: Wire): Key {
    Key(w.netNs, w.uid)
  }

  function KeyOfDef(d: WireDef): Key {
    Key(d.netNs, d.uid)
  }

  function KeyOfRecord(r: Record): Key {
    Key(r.netNs, r.linkId)
  }

  /** A wire re-created from its record has that record as its status. */
  lemma StatusRoundTrip(node: string, r: Record, ifaceId: int, stop: nat)
    requires r.node == node
    ensures StatusOf(node, CreateGWire(ifaceId, r.hostIface, stop, DefOf(r))) == r
    ensures KeyOf(CreateGWire(ifaceId, r.hostIface, stop, DefOf(r))) == KeyOfRecord(r)
  {
  }

  /** An interface inside a pod. */
  datatype PodIface = PodIface(netNs: string, name: string)

  /** What it is; for a veth, the name of its end on the node. */
  datatype PodLink = PodLink(veth: bool, hostIface: string)

  /** `links` are the node's interfaces with their indices, `deaf` those for which no
      handle can be opened at the moment, `handles` maps an index to
      the index of the interface its handle writes to. `limbo` holds the wires taken
      out of the table whose removal is not finished, `failed` those whose removal
      returned an error. `nextIndex` and `nextStop` are never handed out twice. */
  datatype Node = Node(
    name: string,
    wires: map<Key, Wire>, handles: map<int, int>,
    records: map<string, seq<Record>>,
    links: map<string, int>, deaf: set<string>, pods: map<PodIface, PodLink>, nextIndex: int,
    nextStop: nat, closed: set<nat>, limbo: set<Wire>, failed: set<Wire>)

  // ------------------------------------------------------------- primitives

  function Listed(n: Node, topoNs: string): seq<Record> {
    if topoNs in n.records then n.records[topoNs] else []
  }

  /** Writes a wire's status through to the node's object of its namespace. */
  function Store(n: Node, w: Wire): Node {
    n.(records := n.records[w.topoNs := Upsert(Listed(n, w.topoNs), StatusOf(n.name, w))])
  }

  function Register(n: Node, w: Wire): Node {
    Store(n.(wires := n.wires[KeyOf(w) := w], handles := n.handles[w.ifaceId := w.ifaceId]), w)
  }

  /** Registers a wire that was given the next stop channel. */
  function Adopt(n: Node, w: Wire): Node {
    Register(n.(nextStop := n.nextStop + 1), w)
  }

  /** Interfaces disappear; a veth takes its end in the pod along. */
  function Drop(n: Node, gone: set<string>): Node {
    n.(links := n.links - gone,
       pods := map p | p in n.pods && !(n.pods[p].veth && n.pods[p].hostIface in gone) :: n.pods[p])
  }

  function WithIndex(n: Node, index: int): set<string> {
    set h | h in n.links && n.links[h] == index
  }

  function MakeVeth(n: Node, p: PodIface, host: string): Node
    requires p !in n.pods && host !in n.links
  {
    n.(links := n.links[host := n.nextIndex], pods := n.pods[p := PodLink(true, host)], nextIndex := n.nextIndex + 1)
  }

  // ------------------------------------------------------------- operations

  datatype Result = Ok(index: int) | Err

  /** The interface exists and a handle on it can be opened. */
  predicate Opens(n: Node, h: string) {
    h in n.links && h !in n.deaf
  }

  /** The local end: the plugin has created the veth, the daemon takes it over. */
  function AddLocal(n: Node, d: WireDef): (Node, Result) {
    if !Opens(n, d.hostIface) then (n, Err)
    else
      var id := n.links[d.hostIface];
      var w := CreateGWire(id, d.hostIface, n.nextStop, d).(originator := HostCreated, originatorIp := "unknown");
      (Adopt(n, w), Ok(id))
  }

  /** What may go wrong while a peer has this node create its end. */
  datatype Faults = Faults(badCidr: bool, noNetNs: bool, noStore: bool, noRemove: bool, noVeth: bool, noLookup: bool, noOpen: bool)

  const NO_FAULTS := Faults(false, false, false, false, false, false, false)

  /** The wire is tracked already: a fresh stop channel and peer index, and ready. */
  function UpdateWire(n: Node, k: Key, peerIfaceId: int): Node
    requires k in n.wires
  {
    var w := n.wires[k].(stop := n.nextStop, peerIfaceId := peerIfaceId, ready := true);
    Store(n.(wires := n.wires[k := w], nextStop := n.nextStop + 1), w)
  }

  predicate Recorded(n: Node, k: Key) {
    exists ns :: ns in n.records && exists i :: 0 <= i < |n.records[ns]| && KeyOfRecord(n.records[ns][i]) == k
  }

  /** Clears a stale remnant out of the way, or refuses. */
  function EnsureNoStale(n: Node, d: WireDef, f: Faults): (Node, bool) {
    var p := PodIface(d.netNs, d.podIface);
    if f.noNetNs || p !in n.pods then (n, true)
    else if KeyOfDef(d) in n.wires then (n, false)
    else if f.noStore || Recorded(n, KeyOfDef(d)) then (n, false)
    else if !n.pods[p].veth || f.noRemove then (n, false)
    else (Drop(n, {n.pods[p].hostIface}), true)
  }

  function AddRemote(n: Node, d: WireDef, host: string, f: Faults): (Node, Result) {
    var k, p := KeyOfDef(d), PodIface(d.netNs, d.podIface);
    if k in n.wires then (UpdateWire(n, k, d.peerIfaceId), Ok(n.wires[k].ifaceId))
    else if f.badCidr then (n, Err)
    else
      var (n1, clear) := EnsureNoStale(n, d, f);
      if !clear || f.noVeth || p in n1.pods || host in n1.links then (n1, Err)
      else
        var n2 := MakeVeth(n1, p, host);
        if f.noLookup || f.noOpen then (n2, Err)
        else (Adopt(n2, CreateGWire(n1.nextIndex, host, n2.nextStop, d)), Ok(n1.nextIndex))
  }

  /** The peer is going away: stop capturing, keep the wire. */
  function WireDown(n: Node, k: Key): Node {
    if k !in n.wires then n
    else
      var w := n.wires[k];
      n.(wires := n.wires[k := w.(ready := false)], closed := if w.ready then n.closed + {w.stop} else n.closed)
  }

  /** First phase of a pod's deletion: take one wire out of the table. */
  function Extract(n: Node, k: Key): Node {
    if k !in n.wires then n
    else n.(wires := n.wires - {k}, handles := n.handles - {n.wires[k].ifaceId}, limbo := n.limbo + {n.wires[k]})
  }

  /** Second phase: stop its thread, remove its veth, delete its record. If the veth
      cannot be removed the record stays. */
  function Remove(n: Node, w: Wire, stuck: bool): Node {
    if w !in n.limbo then n
    else
      var n1 := n.(limbo := n.limbo - {w}, closed := if w.ready then n.closed + {w.stop} else n.closed);
      if stuck && WithIndex(n, w.ifaceId) != {} then n1.(failed := n1.failed + {w.(ready := false)})
      else
        var n2 := Drop(n1, WithIndex(n, w.ifaceId));
        if w.topoNs in n.records then n2.(records := n2.records[w.topoNs := WithoutLink(n2.records[w.topoNs], w.uid)]) else n2
  }

  /** Last part of a deletion without errors: no record of the pod may stay. */
  function Purge(n: Node, topoNs: string, podName: string): Node {
    var n1 := n.(failed := set w | w in n.failed && !(w.topoNs == topoNs && w.podName == podName));
    if topoNs in n.records then n1.(records := n1.records[topoNs := WithoutPod(n1.records[topoNs], podName)]) else n1
  }

  datatype Op =
    | OpMakeVeth(p: PodIface, host: string)
    | OpAddLocal(d: WireDef)
    | OpAddRemote(d: WireDef, host: string, f: Faults)
    | OpWireDown(k: Key)
    | OpExtract(k: Key)
    | OpRemove(w: Wire, stuck: bool)
    | OpPurge(topoNs: string, podName: string)
    | OpLost(gone: set<string>)
    | OpDeaf(deaf: set<string>)

  function Do(n: Node, op: Op): Node {
    match op
    case OpMakeVeth(p, host) => if p !in n.pods && host !in n.links then MakeVeth(n, p, host) else n
    case OpAddLocal(d) => AddLocal(n, d).0
    case OpAddRemote(d, host, f) => AddRemote(n, d, host, f).0
    case OpWireDown(k) => WireDown(n, k)
    case OpExtract(k) => Extract(n, k)
    case OpRemove(w, stuck) => Remove(n, w, stuck)
    case OpPurge(ns, pod) => Purge(n, ns, pod)
    case OpLost(gone) => Drop(n, gone)
    case OpDeaf(deaf) => n.(deaf := deaf)
  }

  /** Which pod a netns belongs to: its namespace and name. */
  type Owners = string -> (string, string)

  predicate Owned(own: Owners, d: WireDef) {
    own(d.netNs) == (d.topoNs, d.podName)
  }

  /** The interface a local end takes over was created for it: no other wire has it. */
  predicate FreshFor(n: Node, d: WireDef) {
    d.hostIface in n.links ==>
      && (forall k :: k in n.wires && k != KeyOfDef(d) ==> n.wires[k].ifaceId != n.links[d.hostIface])
      && (forall w :: w in n.limbo ==> w.ifaceId != n.links[d.hostIface])
  }

  /** What callers of the daemon respect. */
  predicate Legal(own: Owners, n: Node, op: Op) {
    && (op.OpAddLocal? ==> Owned(own, op.d) && FreshFor(n, op.d))
    && (op.OpAddRemote? ==> Owned(own, op.d))
  }

  function Start(name: string): Node {
    Node(name, map[], map[], map[], map[], {}, map[], 1, 0, {}, {}, {})
  }

  /** The state after a run. */
  function Run(n: Node, ops: seq<Op>): Node {
    if ops == [] then n else Do(Run(n, ops[..|ops| - 1]), ops[|ops| - 1])
  }

  predicate LegalRun(own: Owners, n: Node, ops: seq<Op>) {
    ops == [] || (LegalRun(own, n, ops[..|ops| - 1]) && Legal(own, Run(n, ops[..|ops| - 1]), ops[|ops| - 1]))
  }
}
