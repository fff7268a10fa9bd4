/** The daemon's wire table as it is programmed: wires are objects updated in place,
    and every operation does to the node what its specification function says. */
module WireDaemon {
  import opened WireRecords
  import opened WireNode
  import opened WireInvariants
  import opened WireRecon
  import opened WireDelete
  import opened WireRestart

  lemma ReadyIsOpen(n: Node, k: Key)
    requires StopInv(n) && k in n.wires && n.wires[k].ready
    ensures n.wires[k].stop !in n.closed
  {
  }

  /** The channel of every tracked ready wire is open. */
  ghost predicate ReadyOpen(n: Node) {
    forall k :: k in n.wires && n.wires[k].ready ==> n.wires[k].stop !in n.closed
  }

  lemma StaysOpen(n: Node, ks: set<Key>, stuck: set<Key>)
    requires StopInv(n)
    ensures ReadyOpen(DeleteAll(n, ks, stuck))
  {
    var m := DeleteAll(n, ks, stuck);
    forall k | k in m.wires && m.wires[k].ready ensures m.wires[k].stop !in m.closed { StillOpen(n, ks, stuck, k); }
  }

  lemma NoneLeft(n: Node, ks: set<Key>, stuck: set<Key>, topoNs: string, podName: string)
    requires ks <= PodKeys(n, topoNs, podName) && PodKeys(DeleteAll(n, ks, stuck), topoNs, podName) == {}
    ensures ks == PodKeys(n, topoNs, podName)
  {
    var m := DeleteAll(n, ks, stuck);
    forall k | k in PodKeys(n, topoNs, podName) ensures k in ks {
      assert k !in ks ==> k in PodKeys(m, topoNs, podName);
    }
  }

  /** What one more turn of a deletion does. */
  lemma DeleteStep(n: Node, ks: set<Key>, stuck: set<Key>, k: Key)
    requires TableInv(n) && k in DeleteAll(n, ks, stuck).wires
    ensures k in n.wires && k !in ks && DeleteAll(n, ks, stuck).wires[k] == n.wires[k]
    ensures DeleteOne(DeleteAll(n, ks, stuck), k, k in stuck) == DeleteAll(n, ks + {k}, stuck)
    ensures NoneJammed(n, ks + {k}, stuck) <==> NoneJammed(n, ks, stuck) && !JammedNow(DeleteAll(n, ks, stuck), n.wires[k], k in stuck)
  {
    TableOf(n, ks, stuck, k);
    JammedStays(n, ks, stuck, k);
    DeleteOneMore(n, ks, stuck, k);
    JamGrows(n, ks, stuck, k);
  }

  lemma JamGrows(n: Node, ks: set<Key>, stuck: set<Key>, k: Key)
    requires k in n.wires
    ensures NoneJammed(n, ks + {k}, stuck) <==> NoneJammed(n, ks, stuck) && !Jammed(n, stuck, k)
  {
    assert k in ks + {k};
  }

  lemma TableOf(n: Node, ks: set<Key>, stuck: set<Key>, k: Key)
    requires k in DeleteAll(n, ks, stuck).wires
    ensures k in n.wires && k !in ks && DeleteAll(n, ks, stuck).wires[k] == n.wires[k]
  {
  }

  lemma ValuesShrink(table: map<Key, GRPCWire>, k: Key)
    ensures (table - {k}).Values <= table.Values
    ensures k in table ==> table[k] in table.Values
  {
  }

  /** The wire is no longer pending and its thread is stopped. */
  function Stopped(n: Node, w: Wire): Node {
    n.(limbo := n.limbo - {w}, closed := if w.ready then n.closed + {w.stop} else n.closed)
  }

  lemma RemoveAsSteps(n: Node, w: Wire, stuck: bool)
    requires w in n.limbo
    ensures WithIndex(Stopped(n, w), w.ifaceId) == WithIndex(n, w.ifaceId)
    ensures JammedNow(n, w, stuck) ==>
      Remove(n, w, stuck) == Stopped(n, w).(failed := n.failed + {w.(ready := false)})
    ensures !JammedNow(n, w, stuck) ==>
      Remove(n, w, stuck) == Prune(Drop(Stopped(n, w), WithIndex(n, w.ifaceId)), StatusOf(n.name, w.(ready := false)))
  {
  }

  lemma OneMoreRecord(n: Node, done: seq<Record>, items: seq<Record>, j: nat)
    requires j < |items|
    ensures ReconAll(n, done + items[..j + 1]) == ReconOne(ReconAll(n, done + items[..j]), items[j])
  {
    var rs := done + items[..j + 1];
    assert rs[..|rs| - 1] == done + items[..j];
  }

  class GRPCWire {
    const uid: int
    const topoNs: string
    const ifaceId: int
    const ifaceName: string
    const podIp: string
    const podName: string
    const podIface: string
    const netNs: string
    const peerNodeIp: string
    var peerIfaceId: int
    var ready: bool
    var originator: Originator
    var originatorIp: string
    var stop: nat

    constructor (ifaceId: int, ifaceName: string, stop: nat, d: WireDef)
      ensures Value() == CreateGWire(ifaceId, ifaceName, stop, d)
    {
      uid, topoNs := d.uid, d.topoNs;
      this.ifaceId, this.ifaceName := ifaceId, ifaceName;
      podIp, podName, podIface, netNs := d.podIp, d.podName, d.podIface, d.netNs;
      peerIfaceId, peerNodeIp := d.peerIfaceId, d.peerNodeIp;
      ready, originator, originatorIp := true, PeerCreated, d.peerNodeIp;
      this.stop := stop;
    }

    /** The local end, not ready before it is in the table. */
    constructor OfHost(ifaceId: int, stop: nat, d: WireDef)
      ensures Value() == CreateGWire(ifaceId, d.hostIface, stop, d).(ready := false, originator := HostCreated, originatorIp := "unknown")
    {
      uid, topoNs := d.uid, d.topoNs;
      this.ifaceId, ifaceName := ifaceId, d.hostIface;
      podIp, podName, podIface, netNs := d.podIp, d.podName, d.podIface, d.netNs;
      peerIfaceId, peerNodeIp := d.peerIfaceId, d.peerNodeIp;
      ready, originator, originatorIp := false, HostCreated, "unknown";
      this.stop := stop;
    }

    function Value(): Wire
      reads this
    {
      Wire(uid, topoNs, ifaceId, ifaceName, podIp, podName, podIface, netNs,
           peerIfaceId, peerNodeIp, ready, originator, originatorIp, stop)
    }

    function Id(): Key {
      Key(netNs, uid)
    }
  }

  class Daemon {
    const name: string
    var wires: map<Key, GRPCWire>
    var handles: map<int, int>
    var records: map<string, seq<Record>>
    var links: map<string, int>
    var deaf: set<string>
    var pods: map<PodIface, PodLink>
    var nextIndex: int
    var nextStop: nat
    var closed: set<nat>
    ghost var limbo: set<Wire>
    ghost var failed: set<Wire>

    /** Every wire object is under its own key, hence under one key only. */
    ghost predicate Valid()
      reads this`wires
    {
      forall k :: k in wires ==> wires[k].Id() == k
    }

    ghost function Table(): map<Key, Wire>
      reads this`wires, wires.Values
    {
      map k | k in wires :: wires[k].Value()
    }

    /** Only the wire under k was touched. */
    twostate lemma OneChanged(k: Key)
      requires wires == old(wires) && k in wires && old(Valid())
      requires forall j :: j in wires && wires[j] != wires[k] ==> wires[j].Value() == old(wires[j].Value())
      ensures Table() == old(Table())[k := wires[k].Value()]
    {
    }

    /** Only w was touched, and put into the table. */
    twostate lemma OnePut(new w: GRPCWire)
      requires wires == old(wires)[w.Id() := w] && old(Valid())
      requires forall j :: j in wires && wires[j] != w ==> wires[j].Value() == old(wires[j].Value())
      ensures Table() == old(Table())[w.Id() := w.Value()]
    {
    }

    twostate lemma OneGone(k: Key)
      requires wires == old(wires) - {k} && forall j :: j in wires ==> wires[j].Value() == old(wires[j].Value())
      ensures Table() == old(Table()) - {k}
    {
    }

    ghost function View(): Node
      reads this, wires.Values
    {
      Node(name, Table(), handles, records, links, deaf, pods, nextIndex, nextStop, closed, limbo, failed)
    }

    constructor (name: string)
      ensures Valid() && View() == Start(name) && fresh(this)
    {
      this.name := name;
      wires, handles, records, links, pods := map[], map[], map[], map[], map[];
      deaf, nextIndex, nextStop, closed, limbo, failed := {}, 1, 0, {}, {}, {};
    }

    // ------------------------------------------------------------ the store

    method StoreWire(w: GRPCWire)
      requires Valid()
      modifies this`records
      ensures View() == Store(old(View()), w.Value())
    {
      var status := StatusOf(name, w.Value());
      var list := [status];
      assert Upsert([], status) == [status];
      if w.topoNs in records {
        list := UpsertLoop(records[w.topoNs], status);
      }
      records := records[w.topoNs := list];
    }

    method DeleteWireStatus(status: Record)
      modifies this`records
      ensures View() == Prune(old(View()), status)
    {
      if status.topoNs in records {
        var list := WithoutLinkLoop(records[status.topoNs], status.linkId);
        records := records[status.topoNs := list];
      }
    }

    /** Tells whether a wire of this netns and link is recorded anywhere on the node. */
    method IsWireRecorded(netNs: string, uid: int) returns (found: bool)
      ensures found == Recorded(View(), Key(netNs, uid))
    {
      var todo := records.Keys;
      while todo != {}
        invariant todo <= records.Keys
        invariant forall ns, i :: ns in records.Keys - todo && 0 <= i < |records[ns]| ==> KeyOfRecord(records[ns][i]) != Key(netNs, uid)
        decreases |todo|
      {
        var ns :| ns in todo;
        var list := records[ns];
        for i := 0 to |list|
          invariant forall j :: 0 <= j < i ==> KeyOfRecord(list[j]) != Key(netNs, uid)
        {
          if list[i].linkId == uid && list[i].netNs == netNs {
            return true;
          }
        }
        todo := todo - {ns};
      }
      return false;
    }

    // ------------------------------------------------------------- the table

    method AddInMem(w: GRPCWire, handle: int)
      requires Valid()
      modifies this`wires, this`handles
      ensures Valid() && wires == old(wires)[w.Id() := w] && handles == old(handles)[w.ifaceId := handle]
    {
      wires := wires[w.Id() := w];
      handles := handles[w.ifaceId := handle];
    }

    method AddInMemNDataStore(w: GRPCWire)
      requires Valid() && forall k :: k in wires && k != w.Id() ==> wires[k] != w
      modifies this`wires, this`handles, this`records
      ensures Valid() && wires == old(wires)[w.Id() := w]
      ensures handles == old(handles)[w.ifaceId := w.ifaceId]
      ensures records == Store(old(View()), w.Value()).records
    {
      wires := wires[w.Id() := w];
      StoreWire(w);
      handles := handles[w.ifaceId := w.ifaceId];
    }

    /** Adds or replaces a wire, ready, and writes it through. */
    method AddWireInMemNDataStore(w: GRPCWire)
      requires Valid()
      modifies this`wires, this`handles, this`records, w`ready
      ensures Valid() && wires == old(wires)[w.Id() := w] && w.Value() == old(w.Value()).(ready := true)
      ensures View() == Register(old(View()), w.Value())
    {
      w.ready := true;
      AddInMemNDataStore(w);
      OnePut(w);
    }

    method GetWireByIfIndex(ifindex: int) returns (w: GRPCWire?)
      requires Valid()
      ensures w == null ==> forall k :: k in wires ==> wires[k].ifaceId != ifindex
      ensures w != null ==> w.Id() in wires && wires[w.Id()] == w && w.ifaceId == ifindex
    {
      var todo := wires.Keys;
      while todo != {}
        invariant todo <= wires.Keys && forall k :: k in wires.Keys - todo ==> wires[k].ifaceId != ifindex
        decreases |todo|
      {
        var k :| k in todo;
        if wires[k].ifaceId == ifindex {
          return wires[k];
        }
        todo := todo - {k};
      }
      return null;
    }

    method UpdateWireByUID(k: Key, peerIfaceId: int, stop: nat) returns (w: GRPCWire?)
      requires Valid()
      modifies if k in wires then {wires[k]} else {}
      ensures w == if k in wires then wires[k] else null
      ensures w != null ==> Table() == old(Table())[k := old(Table())[k].(stop := stop, peerIfaceId := peerIfaceId, ready := true)]
    {
      if k in wires {
        w := wires[k];
        w.stop := stop;
        w.peerIfaceId := peerIfaceId;
        w.ready := true;
        OneChanged(k);
      } else {
        w := null;
      }
    }

    /** Closing a closed channel would crash the daemon. */
    method Close(c: nat)
      requires c !in closed
      modifies this`closed
      ensures closed == old(closed) + {c}
    {
      closed := closed + {c};
    }

    method WireDownByUID(k: Key)
      requires Valid() && StopInv(View())
      modifies this`closed, if k in wires then {wires[k]} else {}
      ensures Valid() && View() == WireDown(old(View()), k)
    {
      if k in wires {
        var w := wires[k];
        assert Table()[k] == w.Value();
        if w.ready {
          assert w.stop !in closed by { ReadyIsOpen(View(), k); }
          Close(w.stop);
        }
        w.ready := false;
        OneChanged(k);
      }
    }

    // ------------------------------------------------------------ both ends

    method AdoptHostCreated(id: int, d: WireDef)
      requires Valid()
      modifies this`nextStop, this`wires, this`handles, this`records
      ensures Valid()
      ensures View() == Adopt(old(View()), CreateGWire(id, d.hostIface, old(nextStop), d).(originator := HostCreated, originatorIp := "unknown"))
    {
      var w := new GRPCWire.OfHost(id, nextStop, d);
      nextStop := nextStop + 1;
      assert View() == old(View()).(nextStop := nextStop);
      AddWireInMemNDataStore(w);
    }

    /** Takes over the interface the plugin has created for the link. */
    method CreateGRPCWireLocal(d: WireDef) returns (r: Result)
      requires Valid()
      modifies this`nextStop, this`wires, this`handles, this`records
      ensures Valid() && (View(), r) == AddLocal(old(View()), d)
    {
      if d.hostIface !in links {
        return Err;
      }
      if d.hostIface in deaf {
        return Err;
      }
      AdoptHostCreated(links[d.hostIface], d);
      return Ok(links[d.hostIface]);
    }

    /** A tracked wire gets the channel of the new trigger and its peer's index. */
    method UpdateTracked(k: Key, peerIfaceId: int) returns (id: int)
      requires Valid() && k in wires
      modifies this`nextStop, this`records, wires[k]
      ensures Valid() && View() == UpdateWire(old(View()), k, peerIfaceId) && id == old(View()).wires[k].ifaceId
    {
      var w := UpdateWireByUID(k, peerIfaceId, nextStop);
      nextStop := nextStop + 1;
      assert w.Value() == Table()[k];
      StoreWire(w);
      return w.ifaceId;
    }

    method MakeVethPair(p: PodIface, host: string) returns (id: int)
      requires p !in pods && host !in links
      modifies this`links, this`pods, this`nextIndex
      ensures View() == MakeVeth(old(View()), p, host) && id == old(nextIndex)
    {
      id := nextIndex;
      links, pods, nextIndex := links[host := id], pods[p := PodLink(true, host)], nextIndex + 1;
    }

    method AdoptPeerCreated(id: int, host: string, d: WireDef)
      requires Valid()
      modifies this`nextStop, this`wires, this`handles, this`records
      ensures Valid() && View() == Adopt(old(View()), CreateGWire(id, host, old(nextStop), d))
    {
      var w := new GRPCWire(id, host, nextStop, d);
      nextStop := nextStop + 1;
      assert View() == old(View()).(nextStop := nextStop);
      AddWireInMemNDataStore(w);
    }

    /** Creates the end of a link a peer asks for, or updates it if it is tracked. The
        name of the new veth on the node, and what fails, come from outside. */
    method CreateUpdateGRPCWireRemoteTriggered(d: WireDef, host: string, f: Faults) returns (r: Result)
      requires Valid()
      modifies this, wires.Values
      ensures Valid() && (View(), r) == AddRemote(old(View()), d, host, f)
    {
      var k, p := KeyOfDef(d), PodIface(d.netNs, d.podIface);
      if k in wires {
        var id := UpdateTracked(k, d.peerIfaceId);
        return Ok(id);
      }
      if f.badCidr {
        return Err;
      }
      var clear := EnsureNoStaleRemoteEnd(d, f);
      if !clear || f.noVeth || p in pods || host in links {
        return Err;
      }
      var id := MakeVethPair(p, host);
      if f.noLookup || f.noOpen {
        return Err;
      }
      AdoptPeerCreated(id, host, d);
      return Ok(id);
    }

    method EnsureNoStaleRemoteEnd(d: WireDef, f: Faults) returns (clear: bool)
      requires Valid()
      modifies this`links, this`pods
      ensures (View(), clear) == EnsureNoStale(old(View()), d, f)
    {
      var p := PodIface(d.netNs, d.podIface);
      if f.noNetNs || p !in pods {
        return true;
      }
      if KeyOfDef(d) in wires {
        return false;
      }
      if f.noStore {
        return false;
      }
      var recorded := IsWireRecorded(d.netNs, d.uid);
      if recorded || !pods[p].veth || f.noRemove {
        return false;
      }
      RemoveVeth(pods[p].hostIface);
      return true;
    }

    /** The node's interface h and the interface of a pod it is paired with vanish. */
    method RemoveVeth(h: string)
      modifies this`links, this`pods
      ensures View() == Drop(old(View()), {h})
    {
      links := links - {h};
      pods := map p | p in pods && !(pods[p].veth && pods[p].hostIface == h) :: pods[p];
    }

    // ------------------------------------------------------------- deletion

    /** Takes the wire under k out of the table. */
    method TakeOut(k: Key) returns (w: GRPCWire)
      requires Valid() && k in wires
      modifies this`wires, this`handles, this`limbo
      ensures Valid() && w == old(wires)[k] && wires == old(wires) - {k} && w !in wires.Values
      ensures w.Value() in limbo && w.Value() == old(View()).wires[k] && View() == Extract(old(View()), k)
    {
      w := wires[k];
      limbo := limbo + {w.Value()};
      wires := wires - {k};
      handles := handles - {w.ifaceId};
      OneGone(k);
    }

    /** Takes one wire of the pod, whichever comes first, out of the table. */
    method ExtractOneWireByPod(topoNs: string, podName: string) returns (w: GRPCWire?)
      requires Valid()
      modifies this`wires, this`handles, this`limbo
      ensures Valid()
      ensures w == null ==> wires == old(wires) && View() == old(View()) && PodKeys(View(), topoNs, podName) == {}
      ensures w != null ==> w.Id() in old(wires) && old(wires)[w.Id()] == w && wires == old(wires) - {w.Id()}
      ensures w != null ==> w !in wires.Values && w.Value() in limbo && w.Value() == old(View()).wires[w.Id()]
      ensures w != null ==> OfPod(w.Value(), topoNs, podName) && View() == Extract(old(View()), w.Id())
    {
      hide Extract;
      var todo := wires.Keys;
      while todo != {}
        invariant todo <= wires.Keys && forall k :: k in wires.Keys - todo ==> !OfPod(wires[k].Value(), topoNs, podName)
        decreases |todo|
      {
        var k :| k in todo;
        if wires[k].podName == podName && wires[k].topoNs == topoNs {
          w := TakeOut(k);
          return;
        }
        todo := todo - {k};
      }
      return null;
    }

    /** The wire's receive thread is told to stop. */
    method StopThread(w: GRPCWire)
      requires w !in wires.Values && (w.ready ==> w.stop !in closed)
      modifies this`closed, this`limbo, w`ready
      ensures w.Value() == old(w.Value()).(ready := false)
      ensures View() == Stopped(old(View()), old(w.Value()))
    {
      limbo := limbo - {w.Value()};
      if w.ready {
        Close(w.stop);
      }
      w.ready := false;
    }

    method HasInterface(id: int) returns (present: bool)
      ensures present <==> WithIndex(View(), id) != {}
    {
      var found := set h | h in links && links[h] == id;
      assert found == WithIndex(View(), id);
      return found != {};
    }

    method RemoveVethByIndex(id: int)
      modifies this`links, this`pods
      ensures View() == Drop(old(View()), WithIndex(old(View()), id))
    {
      var gone := set h | h in links && links[h] == id;
      links := links - gone;
      pods := map p | p in pods && !(pods[p].veth && pods[p].hostIface in gone) :: pods[p];
    }

    method RemoveFromNode(w: GRPCWire)
      modifies this`links, this`pods, this`records
      ensures View() == Prune(Drop(old(View()), WithIndex(old(View()), w.ifaceId)), StatusOf(name, w.Value()))
    {
      RemoveVethByIndex(w.ifaceId);
      DeleteWireStatus(StatusOf(name, w.Value()));
    }

    /** Stops the wire's thread, removes its veth and deletes its record; the record stays
        when the veth cannot be removed. */
    method RemoveWireAcrosAll(w: GRPCWire, stuck: bool) returns (ok: bool)
      requires w !in wires.Values && w.Value() in limbo && (w.ready ==> w.stop !in closed)
      modifies this`closed, this`links, this`pods, this`records, this`limbo, this`failed, w`ready
      ensures View() == Remove(old(View()), old(w.Value()), stuck)
      ensures ok == !JammedNow(old(View()), old(w.Value()), stuck)
    {
      RemoveAsSteps(View(), w.Value(), stuck);
      StopThread(w);
      var present := HasInterface(w.ifaceId);
      if present && stuck {
        failed := failed + {w.Value()};
        return false;
      }
      RemoveFromNode(w);
      return true;
    }

    method PurgePod(topoNs: string, podName: string)
      modifies this`records, this`failed
      ensures View() == Purge(old(View()), topoNs, podName)
    {
      hide WithoutPod;
      failed := set w | w in failed && !(w.topoNs == topoNs && w.podName == podName);
      if topoNs in records {
        var list, removed := WithoutPodLoop(records[topoNs], podName);
        if removed > 0 {
          records := records[topoNs := list];
        } else {
          assert records == records[topoNs := list];
        }
      }
    }

    /** One turn of a pod's deletion: its next wire, if any, is extracted and removed. */
    method DeleteNextWire(topoNs: string, podName: string, stuck: set<Key>) returns (w: GRPCWire?, done: bool)
      requires Valid() && ReadyOpen(View())
      modifies this, wires.Values
      ensures Valid()
      ensures w == null ==> View() == old(View()) && PodKeys(View(), topoNs, podName) == {}
      ensures w != null ==> w.Id() in old(wires) && wires == old(wires) - {w.Id()} && w.Id() in PodKeys(old(View()), topoNs, podName)
      ensures w != null ==> View() == DeleteOne(old(View()), w.Id(), w.Id() in stuck)
      ensures w != null ==> done == !JammedNow(old(View()), old(View()).wires[w.Id()], w.Id() in stuck)
    {
      done := true;
      w := ExtractOneWireByPod(topoNs, podName);
      if w != null {
        done := RemoveWireAcrosAll(w, w.Id() in stuck);
      }
    }

    /** The loop of a deletion, and whether every wire could be removed. */
    method DrainPod(topoNs: string, podName: string, stuck: set<Key>) returns (ok: bool)
      requires Valid() && TableInv(View()) && StopInv(View())
      modifies this, wires.Values
      ensures Valid() && View() == DeleteAll(old(View()), PodKeys(old(View()), topoNs, podName), stuck)
      ensures ok == NoneJammed(old(View()), PodKeys(old(View()), topoNs, podName), stuck)
    {
      ghost var n, ks, objects := View(), {}, wires.Values;
      NothingDeleted(n, stuck);
      ok := true;
      while true
        invariant Valid() && ks <= PodKeys(n, topoNs, podName) && View() == DeleteAll(n, ks, stuck)
        invariant wires.Values <= objects
        invariant ok == NoneJammed(n, ks, stuck)
        decreases wires.Keys
      {
        ghost var table := wires;
        StaysOpen(n, ks, stuck);
        var w, done := DeleteNextWire(topoNs, podName, stuck);
        if w == null {
          NoneLeft(n, ks, stuck, topoNs, podName);
          break;
        }
        ValuesShrink(table, w.Id());
        DeleteStep(n, ks, stuck, w.Id());
        ok := ok && done;
        ks := ks + {w.Id()};
      }
    }

    /** Deletes all wires of a pod; `stuck` are the wires whose veth cannot be removed. */
    method DeletePodWires(topoNs: string, podName: string, stuck: set<Key>) returns (ok: bool)
      requires Valid() && TableInv(View()) && StopInv(View())
      modifies this, wires.Values
      ensures Valid() && (View(), ok) == DeletePod(old(View()), topoNs, podName, stuck)
    {
      ok := DrainPod(topoNs, podName, stuck);
      if ok {
        PurgePod(topoNs, podName);
      }
    }

    // ------------------------------------------------------------- recovery

    method ReconLocalGRPCWire(d: WireDef) returns (ok: bool)
      requires Valid()
      modifies this`wires, this`handles, this`nextStop
      ensures Valid() && ok == Opens(View(), d.hostIface)
      ensures View() == if ok then Revive(old(View()), d) else old(View())
    {
      if d.hostIface !in links {
        return false;
      }
      if d.hostIface in deaf {
        return false;
      }
      var w := new GRPCWire(links[d.hostIface], d.hostIface, nextStop, d);
      nextStop := nextStop + 1;
      AddInMem(w, w.ifaceId);
      OnePut(w);
      return true;
    }

    method ReCreateGWire(r: Record)
      requires Valid()
      modifies this`wires, this`handles, this`nextStop, this`records
      ensures Valid() && View() == ReconOne(old(View()), r)
    {
      if KeyOfRecord(r) in wires && wires[KeyOfRecord(r)].ready {
        return;
      }
      var ok := ReconLocalGRPCWire(DefOf(r));
      if !ok {
        DeleteWireStatus(r);
      }
    }

    /** Goes through the node's objects, listed in any order, and their records as they
        were when listed. */
    method ReconGWires(order: seq<string>)
      requires Valid()
      modifies this`wires, this`handles, this`nextStop, this`records
      ensures Valid() && View() == ReconAll(old(View()), ListAll(old(View()), order))
    {
      ghost var n := View();
      var objects := records;
      for i := 0 to |order|
        invariant Valid() && View() == ReconAll(n, ListAll(n, order[..i]))
      {
        var items := if order[i] in objects then objects[order[i]] else [];
        ghost var done := ListAll(n, order[..i]);
        assert items[..0] == [] && done + [] == done;
        for j := 0 to |items|
          invariant Valid() && View() == ReconAll(n, done + items[..j])
        {
          ReCreateGWire(items[j]);
          OneMoreRecord(n, done, items, j);
        }
        assert items[..|items|] == items;
        assert order[..i + 1][..i] == order[..i];
      }
      assert order[..|order|] == order;
    }
  }
}
