/** Runs after which a restart does what one would not expect. */
module WireRaces {
  import opened WireRecords
  import opened WireNode
  import opened WireInvariants
  import opened WireRecon
  import opened WireRestart
  import opened WireLives

  /** The pods of two links' ends, each in a netns of its own. */
  predicate TwoPods(own: Owners, d: WireDef, e: WireDef) {
    Owned(own, d) && Owned(own, e) && d.netNs != e.netNs && d.podName != e.podName && d.topoNs == e.topoNs
  }

  function Create(d: WireDef, host: string): Op {
    OpAddRemote(d, host, NO_FAULTS)
  }

  /** The first wire of a node that has none. */
  lemma FirstWire(name: string, d: WireDef, host: string)
    ensures var n := Do(Start(name), Create(d, host)); var k := KeyOfDef(d);
      && n.name == name && n.wires.Keys == {k} && n.wires[k].netNs == d.netNs && n.wires[k].ifaceName == host
      && n.records == map[d.topoNs := [RecordOf(name, d, host)]] && StatusOf(name, n.wires[k]) == RecordOf(name, d, host)
      && n.links == map[host := 1] && n.pods.Keys == {PodIface(d.netNs, d.podIface)} && n.deaf == {} && n.limbo == {} && n.failed == {}
  {
    assert Upsert([], RecordOf(name, d, host)) == [RecordOf(name, d, host)];
  }

  function RecordOf(name: string, d: WireDef, host: string): Record {
    Record(name, d.uid, d.topoNs, d.netNs, d.podName, d.podIp, d.podIface, host, d.peerIfaceId, d.peerNodeIp)
  }

  lemma UpsertSecond(r: Record, s: Record)
    requires Unrelated(r, s)
    ensures Upsert([r], s) == [r, s]
  {
    var list := [r];
    assert list[..|list| - 1] == [] && list[|list| - 1] == r;
    assert Merge(list, s) == ([] + [r], false);
  }

  /** A second wire, of another pod. */
  lemma SecondWire(name: string, n: Node, d: WireDef, host: string, e: WireDef, host': string)
    requires n.records == map[d.topoNs := [RecordOf(name, d, host)]] && n.name == name
    requires KeyOfDef(e) !in n.wires && PodIface(e.netNs, e.podIface) !in n.pods && host' !in n.links
    requires d.netNs != e.netNs && d.podName != e.podName && d.topoNs == e.topoNs
    ensures Do(n, Create(e, host')).records == map[d.topoNs := [RecordOf(name, d, host), RecordOf(name, e, host')]]
    ensures Do(n, Create(e, host')).links == n.links[host' := n.nextIndex] && Do(n, Create(e, host')).deaf == n.deaf
  {
    UpsertSecond(RecordOf(name, d, host), RecordOf(name, e, host'));
  }

  lemma TwoHeld(n: Node, r: Record, s: Record)
    requires n.records == map[r.topoNs := [r, s]] && r.topoNs == s.topoNs && KeyOfRecord(r) != KeyOfRecord(s)
    requires Live(n, r) && r.hostIface == s.hostIface
    ensures !DistinctIfaces(n)
  {
    assert Held(n, r) && Held(n, s);
  }

  /** An interface vanishes and its name is given out again: two live records name one
      interface. */
  lemma SharedNameRun(own: Owners, name: string, d: WireDef, e: WireDef, host: string) returns (ops: seq<Op>)
    requires TwoPods(own, d, e)
    ensures LegalRun(own, Start(name), ops)
    ensures !DistinctIfaces(Run(Start(name), ops))
  {
    hide DistinctIfaces, AddRemote;
    var a, b, c := Create(d, host), OpLost({host}), Create(e, host);
    FirstWire(name, d, host);
    OneMoreOp(own, Start(name), [], a);
    OneMoreOp(own, Start(name), [a], b);
    OneMoreOp(own, Start(name), [a] + [b], c);
    ops := [a] + [b] + [c];
    SecondWire(name, Do(Do(Start(name), a), b), d, host, e, host);
    TwoHeld(Do(Do(Do(Start(name), a), b), c), RecordOf(name, d, host), RecordOf(name, e, host));
  }

  /** Both ends of a link are on the node, and the interface of one vanishes: a dead and
      a live record of the link are in one object. */
  lemma MixedLinkRun(own: Owners, name: string, d: WireDef, e: WireDef, host: string, host': string) returns (ops: seq<Op>)
    requires TwoPods(own, d, e) && d.uid == e.uid && host != host'
    ensures LegalRun(own, Start(name), ops)
    ensures !NoMixedLink(Run(Start(name), ops))
  {
    hide AddRemote;
    var a, b, c := Create(d, host), Create(e, host'), OpLost({host});
    FirstWire(name, d, host);
    OneMoreOp(own, Start(name), [], a);
    OneMoreOp(own, Start(name), [a], b);
    OneMoreOp(own, Start(name), [a] + [b], c);
    ops := [a] + [b] + [c];
    SecondWire(name, Do(Start(name), a), d, host, e, host');
    var n := Do(Do(Do(Start(name), a), b), c);
    assert Held(n, RecordOf(name, d, host)) && !Live(n, RecordOf(name, d, host));
    assert Held(n, RecordOf(name, e, host')) && Live(n, RecordOf(name, e, host'));
  }

  /** The daemon stops between the two phases of a deletion: the wire, which was not
      tracked any more, is re-adopted. */
  lemma PendingRemovalComesBack(own: Owners, name: string, d: WireDef, host: string) returns (ops: seq<Op>)
    requires Owned(own, d)
    ensures LegalRun(own, Start(name), ops)
    ensures var n := Run(Start(name), ops);
      KeyOfDef(d) !in n.wires && Covers(n, [d.topoNs]) && KeyOfDef(d) in ReconAll(Restarted(n), ListAll(n, [d.topoNs])).wires
  {
    var a, b := Create(d, host), OpExtract(KeyOfDef(d));
    FirstWire(name, d, host);
    OneMoreOp(own, Start(name), [], a);
    OneMoreOp(own, Start(name), [a], b);
    ops := [a] + [b];
    var n, r := Do(Do(Start(name), a), b), RecordOf(name, d, host);
    assert ListAll(n, []) == [];
    assert [d.topoNs][..0] == [] && ListAll(n, [d.topoNs]) == [r];
    assert [r][..0] == [] && ReconAll(Restarted(n), []) == Restarted(n);
    assert ReconAll(Restarted(n), [r]) == ReconOne(Restarted(n), r);
    assert Live(Restarted(n), r);
  }
}
