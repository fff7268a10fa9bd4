/** Recovery after a restart of the daemon: the wire table is rebuilt from the
    persisted records. */
module WireRecon {
  import opened WireRecords
  import opened WireNode

  /** A restart empties the memory; records and interfaces stay. */
  function Restarted(n: Node): Node {
    n.(wires := map[], handles := map[], limbo := {}, failed := {})
  }

  predicate Live(n: Node, r: Record) {
    Opens(n, r.hostIface)
  }

  /** The wire is re-created on its interface, which exists. */
  function Revived(n: Node, d: WireDef): Wire
    requires d.hostIface in n.links
  {
    CreateGWire(n.links[d.hostIface], d.hostIface, n.nextStop, d)
  }

  function Revive(n: Node, d: WireDef): Node
    requires d.hostIface in n.links
  {
    var w := Revived(n, d);
    n.(wires := n.wires[KeyOf(w) := w], handles := n.handles[w.ifaceId := w.ifaceId], nextStop := n.nextStop + 1)
  }

  /** A record that cannot be revived is deleted, by its link alone. */
  function Prune(n: Node, r: Record): Node {
    if r.topoNs in n.records then n.(records := n.records[r.topoNs := WithoutLink(n.records[r.topoNs], r.linkId)]) else n
  }

  function ReconOne(n: Node, r: Record): Node {
    var k := KeyOfRecord(r);
    if k in n.wires && n.wires[k].ready then n
    else if Live(n, r) then Revive(n, DefOf(r))
    else Prune(n, r)
  }

  /** `rs` are all the records as they were listed at the start. */
  function ReconAll(n: Node, rs: seq<Record>): Node {
    if rs == [] then n else ReconOne(ReconAll(n, rs[..|rs| - 1]), rs[|rs| - 1])
  }

  // --------------------------------------------------------- what it leaves

  /** Every record is in the object of its node and namespace. */
  ghost predicate HomeIn(n: Node) {
    forall ns, r :: ns in n.records && r in n.records[ns] ==> r.topoNs == ns && r.node == n.name
  }

  ghost predicate Held(n: Node, r: Record) {
    r in Listed(n, r.topoNs)
  }

  /** rs lists exactly the records of n. */
  ghost predicate Lists(n: Node, rs: seq<Record>) {
    forall r :: r in rs <==> Held(n, r)
  }

  predicate DistinctKeys(rs: seq<Record>) {
    forall i, j :: 0 <= i < j < |rs| ==> KeyOfRecord(rs[i]) != KeyOfRecord(rs[j])
  }

  /** Some listed record of the same link and namespace has lost its interface. */
  ghost predicate Doomed(n: Node, rs: seq<Record>, e: Record) {
    exists r :: r in rs && !Live(n, r) && r.linkId == e.linkId && r.topoNs == e.topoNs
  }

  ghost function Spared(n: Node, rs: seq<Record>): Record -> bool {
    e => !Doomed(n, rs, e)
  }

  lemma {:induction false} FilterCongruent(list: seq<Record>, p: Record -> bool, q: Record -> bool)
    requires forall e :: e in list ==> p(e) == q(e)
    ensures Filter(list, p) == Filter(list, q)
  {
    if list != [] {
      var e := list[|list| - 1];
      assert e in list;
      assert forall x :: x in list[..|list| - 1] ==> x in list;
      FilterCongruent(list[..|list| - 1], p, q);
    }
  }

  lemma {:induction false} FilterTwice(list: seq<Record>, p: Record -> bool, q: Record -> bool, both: Record -> bool)
    requires forall e :: both(e) <==> p(e) && q(e)
    ensures Filter(Filter(list, p), q) == Filter(list, both)
  {
    if list != [] {
      var front, e := list[..|list| - 1], list[|list| - 1];
      FilterTwice(front, p, q, both);
      if p(e) { FilterSnoc(Filter(front, p), e, q); }
    }
  }

  lemma {:induction false} FilterAll(list: seq<Record>, p: Record -> bool)
    requires forall e :: e in list ==> p(e)
    ensures Filter(list, p) == list
  {
    if list != [] {
      var e := list[|list| - 1];
      assert e in list && list == list[..|list| - 1] + [e];
      assert forall x :: x in list[..|list| - 1] ==> x in list;
      FilterAll(list[..|list| - 1], p);
    }
  }

  /** The wire at r's key is r's, running, on r's interface, with its handle. */
  ghost predicate Recovered(m: Node, r: Record) {
    var k := KeyOfRecord(r);
    && k in m.wires && StatusOf(m.name, m.wires[k]) == r && m.wires[k].ready
    && r.hostIface in m.links && m.wires[k].ifaceId == m.links[r.hostIface]
    && m.wires[k].ifaceId in m.handles && m.handles[m.wires[k].ifaceId] == m.wires[k].ifaceId
  }

  /** What the memory holds once the records rs were gone through. */
  ghost predicate TableIs(n: Node, m: Node, rs: seq<Record>) {
    && (forall k :: k in m.wires ==> exists r :: r in rs && Live(n, r) && KeyOfRecord(r) == k)
    && (forall r :: r in rs && Live(n, r) ==> Recovered(m, r))
  }

  /** There are handles for these wires only. */
  ghost predicate HandlesAre(m: Node) {
    forall i :: i in m.handles ==> exists k :: k in m.wires && m.wires[k].ifaceId == i
  }

  lemma {:induction false} ReconAllKeepsHandles(n: Node, rs: seq<Record>)
    requires n.wires == map[] && n.handles == map[]
    ensures HandlesAre(ReconAll(n, rs))
    ensures forall k :: k in ReconAll(n, rs).wires ==> ReconAll(n, rs).wires[k].ready
  {
    if rs != [] {
      ReconAllKeepsHandles(n, rs[..|rs| - 1]);
      ReconOneKeepsHandles(ReconAll(n, rs[..|rs| - 1]), rs[|rs| - 1]);
    }
  }

  lemma ReconOneKeepsHandles(m: Node, r: Record)
    requires HandlesAre(m) && forall k :: k in m.wires ==> m.wires[k].ready
    ensures HandlesAre(ReconOne(m, r)) && forall k :: k in ReconOne(m, r).wires ==> ReconOne(m, r).wires[k].ready
  {
    var o := ReconOne(m, r);
    forall i | i in o.handles ensures exists k :: k in o.wires && o.wires[k].ifaceId == i {
      if i in m.handles {
        var k :| k in m.wires && m.wires[k].ifaceId == i;
        assert k in o.wires && o.wires[k].ifaceId == i;
      } else {
        assert KeyOfRecord(r) in o.wires && o.wires[KeyOfRecord(r)].ifaceId == i;
      }
    }
  }

  /** One record by itself: a wire that is up is left alone; one that is missing, or down, is
      put on the interface, and otherwise the record is pruned. */
  lemma ReconOneOutcome(n: Node, r: Record)
    requires HomeIn(n)
    ensures var k, m := KeyOfRecord(r), ReconOne(n, r);
      var up, live := k in n.wires && n.wires[k].ready, r.hostIface in n.links && r.hostIface !in n.deaf;
      && (up ==> m == n)
      && (!up && live ==>
            k in m.wires && m.wires[k].ready && m.wires[k].ifaceId == n.links[r.hostIface] && m.records == n.records)
      && (!up && !live ==>
            && m.wires == n.wires && m.handles == n.handles
            && forall e :: Held(m, e) <==> Held(n, e) && !(e.linkId == r.linkId && e.topoNs == r.topoNs))
  {
  }

  ghost predicate RecordsAre(n: Node, m: Node, rs: seq<Record>) {
    && m.records.Keys == n.records.Keys
    && forall ns :: ns in n.records ==> m.records[ns] == Filter(n.records[ns], Spared(n, rs))
  }

  ghost predicate SameWorld(n: Node, m: Node) {
    m.name == n.name && m.links == n.links && m.deaf == n.deaf && m.pods == n.pods && m.nextIndex == n.nextIndex
    && m.closed == n.closed && m.limbo == n.limbo && m.failed == n.failed
  }

  lemma ReviveKeepsTable(n: Node, m: Node, rs: seq<Record>, r: Record)
    requires SameWorld(n, m) && TableIs(n, m, rs) && Live(n, r) && r.node == n.name
    requires KeyOfRecord(r) !in m.wires
    ensures TableIs(n, Revive(m, DefOf(r)), rs + [r])
  {
    StatusRoundTrip(n.name, r, m.links[r.hostIface], m.nextStop);
    var m' := Revive(m, DefOf(r));
    forall x | x in rs && Live(n, x) ensures Recovered(m', x) { assert Recovered(m, x); }
    assert Recovered(m', r);
    forall k | k in m'.wires ensures exists x :: x in rs + [r] && Live(n, x) && KeyOfRecord(x) == k {
      if k == KeyOfRecord(r) {
        assert r in rs + [r];
      } else {
        var x :| x in rs && Live(n, x) && KeyOfRecord(x) == k;
        assert x in rs + [r];
      }
    }
  }

  lemma SparedGrows(n: Node, rs: seq<Record>, r: Record, e: Record)
    ensures Spared(n, rs + [r])(e) <==> Spared(n, rs)(e) && (Live(n, r) || r.linkId != e.linkId || r.topoNs != e.topoNs)
  {
    if Doomed(n, rs, e) {
      var x :| x in rs && !Live(n, x) && x.linkId == e.linkId && x.topoNs == e.topoNs;
      assert x in rs + [r];
    }
    if !Live(n, r) && r.linkId == e.linkId && r.topoNs == e.topoNs {
      assert r in rs + [r];
    }
  }

  lemma LiveSparesAll(n: Node, m: Node, rs: seq<Record>, r: Record)
    requires RecordsAre(n, m, rs) && Live(n, r)
    ensures RecordsAre(n, m, rs + [r])
  {
    forall ns | ns in n.records ensures m.records[ns] == Filter(n.records[ns], Spared(n, rs + [r])) {
      forall e | e in n.records[ns] ensures Spared(n, rs)(e) == Spared(n, rs + [r])(e) { SparedGrows(n, rs, r, e); }
      FilterCongruent(n.records[ns], Spared(n, rs), Spared(n, rs + [r]));
    }
  }

  lemma PruneSpares(n: Node, m: Node, rs: seq<Record>, r: Record)
    requires RecordsAre(n, m, rs) && HomeIn(n) && !Live(n, r)
    ensures RecordsAre(n, Prune(m, r), rs + [r])
  {
    var m' := Prune(m, r);
    forall ns | ns in n.records ensures m'.records[ns] == Filter(n.records[ns], Spared(n, rs + [r])) {
      PruneSparesIn(n, rs, r, ns);
    }
  }

  lemma PruneSparesIn(n: Node, rs: seq<Record>, r: Record, ns: string)
    requires ns in n.records && !Live(n, r)
    requires forall e :: e in n.records[ns] ==> e.topoNs == ns
    ensures Filter(n.records[ns], Spared(n, rs + [r])) ==
      if ns == r.topoNs then WithoutLink(Filter(n.records[ns], Spared(n, rs)), r.linkId) else Filter(n.records[ns], Spared(n, rs))
  {
    var list := n.records[ns];
    forall e ensures Spared(n, rs + [r])(e) <==> Spared(n, rs)(e) && (r.linkId != e.linkId || r.topoNs != e.topoNs) { SparedGrows(n, rs, r, e); }
    if ns == r.topoNs {
      var both := e => Spared(n, rs)(e) && NotLink(r.linkId)(e);
      FilterTwice(list, Spared(n, rs), NotLink(r.linkId), both);
      FilterCongruent(list, both, Spared(n, rs + [r]));
    } else {
      FilterCongruent(list, Spared(n, rs), Spared(n, rs + [r]));
    }
  }

  lemma ReconOneKeeps(n: Node, m: Node, rs: seq<Record>, r: Record)
    requires HomeIn(n) && r.node == n.name && DistinctKeys(rs + [r])
    requires SameWorld(n, m) && TableIs(n, m, rs) && RecordsAre(n, m, rs)
    ensures SameWorld(n, ReconOne(m, r)) && TableIs(n, ReconOne(m, r), rs + [r]) && RecordsAre(n, ReconOne(m, r), rs + [r])
  {
    UntrackedYet(n, m, rs, r);
    if Live(n, r) {
      ReviveKeepsTable(n, m, rs, r);
      LiveSparesAll(n, m, rs, r);
    } else {
      PruneKeepsTable(n, m, rs, r);
      PruneSpares(n, m, rs, r);
    }
  }

  lemma UntrackedYet(n: Node, m: Node, rs: seq<Record>, r: Record)
    requires TableIs(n, m, rs) && DistinctKeys(rs + [r])
    ensures KeyOfRecord(r) !in m.wires
  {
    forall x | x in rs ensures KeyOfRecord(x) != KeyOfRecord(r) {
      var i :| 0 <= i < |rs| && rs[i] == x;
      assert (rs + [r])[i] == x && (rs + [r])[|rs|] == r;
    }
  }

  lemma PruneKeepsTable(n: Node, m: Node, rs: seq<Record>, r: Record)
    requires TableIs(n, m, rs) && !Live(n, r)
    ensures TableIs(n, Prune(m, r), rs + [r])
  {
    var m' := Prune(m, r);
    forall x | x in rs && Live(n, x) ensures Recovered(m', x) { assert Recovered(m, x); }
    forall k | k in m'.wires ensures exists x :: x in rs + [r] && Live(n, x) && KeyOfRecord(x) == k {
      var x :| x in rs && Live(n, x) && KeyOfRecord(x) == k;
      assert x in rs + [r];
    }
  }

  lemma {:induction false} ReconAllKeeps(n: Node, rs: seq<Record>)
    requires HomeIn(n) && DistinctKeys(rs) && forall r :: r in rs ==> r.node == n.name
    requires n.wires == map[]
    ensures var m := ReconAll(n, rs); SameWorld(n, m) && TableIs(n, m, rs) && RecordsAre(n, m, rs)
  {
    if rs == [] {
      forall ns | ns in n.records ensures n.records[ns] == Filter(n.records[ns], Spared(n, rs)) {
        FilterAll(n.records[ns], Spared(n, rs));
      }
    } else {
      var front, r := rs[..|rs| - 1], rs[|rs| - 1];
      assert rs == front + [r];
      ReconAllKeeps(n, front);
      ReconOneKeeps(n, ReconAll(n, front), front, r);
    }
  }

  // --------------------------------------------------------------- recovery

  /** After a restart the table is exactly the records whose interface exists, each
      wire mapping back to its record; a record stays unless its link and namespace
      are those of a record whose interface is gone; the node is not touched. */
  lemma Recovers(n: Node, rs: seq<Record>)
    requires HomeIn(n) && Lists(n, rs) && DistinctKeys(rs)
    ensures var m := ReconAll(Restarted(n), rs);
      SameWorld(Restarted(n), m)
    ensures var m := ReconAll(Restarted(n), rs);
      forall k :: k in m.wires <==> exists r :: Held(n, r) && Live(n, r) && KeyOfRecord(r) == k
    ensures var m := ReconAll(Restarted(n), rs);
      forall r :: Held(n, r) && Live(n, r) ==> Recovered(m, r)
    ensures var m := ReconAll(Restarted(n), rs);
      m.records.Keys == n.records.Keys && forall ns :: ns in n.records ==> m.records[ns] == Filter(n.records[ns], Spared(n, rs))
  {
    var n0 := Restarted(n);
    ReconAllKeeps(n0, rs);
    var m := ReconAll(n0, rs);
    forall k ensures k in m.wires <==> exists r :: Held(n, r) && Live(n, r) && KeyOfRecord(r) == k {
      if k in m.wires {
        var r :| r in rs && Live(n0, r) && KeyOfRecord(r) == k;
        assert Held(n, r) && Live(n, r);
      }
      if r :| Held(n, r) && Live(n, r) && KeyOfRecord(r) == k {
        assert r in rs && Live(n0, r) && Recovered(m, r);
      }
    }
    forall r | Held(n, r) && Live(n, r) ensures Recovered(m, r) { assert Live(n0, r); }
    forall ns | ns in n.records ensures m.records[ns] == Filter(n.records[ns], Spared(n, rs)) {
      forall e ensures Spared(n0, rs)(e) == Spared(n, rs)(e) { SameDoom(n, rs, e); }
      FilterCongruent(n.records[ns], Spared(n0, rs), Spared(n, rs));
    }
  }

  /** Nothing else is left of the daemon that stopped: no handle that is not a recovered
      wire's, and no removal under way; every recovered wire is up, and the node's
      interfaces are as they were. */
  lemma RecoversNothingElse(n: Node, rs: seq<Record>)
    ensures var m := ReconAll(Restarted(n), rs);
      && HandlesAre(m) && m.limbo == m.failed == {} && (forall k :: k in m.wires ==> m.wires[k].ready)
      && m.name == n.name && m.links == n.links && m.pods == n.pods && m.deaf == n.deaf && m.nextIndex == n.nextIndex
  {
    ReconAllKeepsHandles(Restarted(n), rs);
    SameWorldAfter(Restarted(n), rs);
  }

  lemma {:induction false} SameWorldAfter(n: Node, rs: seq<Record>)
    ensures SameWorld(n, ReconAll(n, rs))
  {
    if rs != [] { SameWorldAfter(n, rs[..|rs| - 1]); }
  }

  lemma SameDoom(n: Node, rs: seq<Record>, e: Record)
    ensures Doomed(Restarted(n), rs, e) <==> Doomed(n, rs, e)
  {
    if Doomed(n, rs, e) {
      var r :| r in rs && !Live(n, r) && r.linkId == e.linkId && r.topoNs == e.topoNs;
      assert !Live(Restarted(n), r);
    }
  }

  /** No record of a vanished interface has the link and namespace of one whose
      interface exists. */
  ghost predicate NoMixedLink(n: Node) {
    forall d, e :: Held(n, d) && Held(n, e) && !Live(n, d) && d.linkId == e.linkId && d.topoNs == e.topoNs ==> !Live(n, e)
  }

  function IsLive(n: Node): Record -> bool {
    r => Live(n, r)
  }

  /** m holds the records of n whose interface exists, in their order, and no other. */
  ghost predicate KeepsTheLive(n: Node, m: Node) {
    m.records.Keys == n.records.Keys && forall ns :: ns in n.records ==> m.records[ns] == Filter(n.records[ns], IsLive(n))
  }

  /** Recovery keeps exactly the records whose interface exists if, and only if, no
      link has both a live and a dead record in one object: pruning goes by link id
      alone and takes the live one along. */
  lemma KeepsLiveRecordsIff(n: Node, rs: seq<Record>)
    requires HomeIn(n) && Lists(n, rs) && DistinctKeys(rs)
    ensures KeepsTheLive(n, ReconAll(Restarted(n), rs)) <==> NoMixedLink(n)
  {
    Recovers(n, rs);
    var m := ReconAll(Restarted(n), rs);
    if NoMixedLink(n) {
      forall ns | ns in n.records ensures m.records[ns] == Filter(n.records[ns], IsLive(n)) {
        forall e | e in n.records[ns] ensures Spared(n, rs)(e) == IsLive(n)(e) { DoomedIffDead(n, rs, e); }
        FilterCongruent(n.records[ns], Spared(n, rs), IsLive(n));
      }
    }
    if KeepsTheLive(n, m) {
      forall d, e | Held(n, d) && Held(n, e) && !Live(n, d) && d.linkId == e.linkId && d.topoNs == e.topoNs
        ensures !Live(n, e)
      {
        assert d in rs && Doomed(n, rs, e) && !Spared(n, rs)(e);
        assert e !in m.records[e.topoNs];
      }
    }
  }

  lemma DoomedIffDead(n: Node, rs: seq<Record>, e: Record)
    requires Lists(n, rs) && Held(n, e) && NoMixedLink(n)
    ensures Doomed(n, rs, e) <==> !Live(n, e)
  {
  }

  // ------------------------------------------------------------ second pass

  lemma {:induction false} AllTrackedIsStill(m: Node, rs: seq<Record>)
    requires forall r :: r in rs ==> KeyOfRecord(r) in m.wires && m.wires[KeyOfRecord(r)].ready
    ensures ReconAll(m, rs) == m
  {
    if rs != [] {
      var front := rs[..|rs| - 1];
      assert forall r :: r in front ==> r in rs;
      AllTrackedIsStill(m, front);
      assert rs[|rs| - 1] in rs;
    }
  }

  /** A second pass over what the first one left changes nothing. */
  lemma SecondPassChangesNothing(n: Node, rs: seq<Record>, again: seq<Record>)
    requires HomeIn(n) && Lists(n, rs) && DistinctKeys(rs)
    requires Lists(ReconAll(Restarted(n), rs), again)
    ensures ReconAll(ReconAll(Restarted(n), rs), again) == ReconAll(Restarted(n), rs)
  {
    Recovers(n, rs);
    var m := ReconAll(Restarted(n), rs);
    forall r | r in again ensures KeyOfRecord(r) in m.wires && m.wires[KeyOfRecord(r)].ready {
      assert Held(m, r) && Held(n, r) && !Doomed(n, rs, r);
      assert r in rs && Live(n, r);
      assert Recovered(m, r);
    }
    AllTrackedIsStill(m, again);
  }
}
