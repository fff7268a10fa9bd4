/** What the two ends of a link say about it, as tracked and as recorded. */
module HandshakeEnds {
  import opened WireRecords
  import opened WireNode
  import opened WireInvariants
  import opened WireTheorems
  import opened WireRecon
  import opened WireRestart
  import opened Handshake
  import opened HandshakeLives

  /** The wire is the end e of the link, on that interface of the node. */
  predicate IsEnd(w: Wire, e: End, uid: int, host: string) {
    && w.uid == uid && w.topoNs == e.topoNs && w.netNs == e.netNs
    && w.podName == e.podName && w.podIp == e.podIp && w.podIface == e.podIface && w.ifaceName == host
  }

  /** Who had the wire made: this host's plugin, or the daemon at that address. */
  predicate MadeHere(w: Wire) {
    w.originator == HostCreated && w.originatorIp == "unknown"
  }

  predicate MadeFor(w: Wire, ip: string) {
    w.originator == PeerCreated && w.originatorIp == ip
  }

  predicate RecordsEnd(r: Record, e: End, uid: int, host: string, peerIfaceId: int, peerNodeIp: string) {
    && r.linkId == uid && r.topoNs == e.topoNs && r.netNs == e.netNs
    && r.podName == e.podName && r.podIp == e.podIp && r.podIface == e.podIface && r.hostIface == host
    && r.peerIfaceId == peerIfaceId && r.peerNodeIp == peerNodeIp
  }

  ghost predicate Recorded(n: Node, e: End, uid: int, host: string, peerIfaceId: int, peerNodeIp: string) {
    exists r :: r in Listed(n, e.topoNs) && r.node == n.name && RecordsEnd(r, e, uid, host, peerIfaceId, peerNodeIp)
  }

  lemma HeldIsRecorded(n: Node, w: Wire, e: End, uid: int, host: string)
    requires IsEnd(w, e, uid, host) && Held(n, StatusOf(n.name, w))
    ensures Recorded(n, e, uid, host, w.peerIfaceId, w.peerNodeIp)
  {
    var r := StatusOf(n.name, w);
    assert r in Listed(n, e.topoNs) && RecordsEnd(r, e, uid, host, w.peerIfaceId, w.peerNodeIp);
  }

  lemma PutIsRecorded(n: Node, m: Node, w: Wire, e: End, uid: int, host: string)
    requires Put(n, m, w) && IsEnd(w, e, uid, host)
    ensures Recorded(m, e, uid, host, w.peerIfaceId, w.peerNodeIp)
  {
    UpsertContents(Listed(n, w.topoNs), StatusOf(n.name, w));
    HeldIsRecorded(m, w, e, uid, host);
  }

  lemma FarIsEnd(own: Owners, n: Node, q: Request, a: Node, t: Trouble)
    requires TableInv(n) && OwnersInv(own, n) && EndOwned(own, q.there) && AskPeer(a, n, q, t).1.Ok?
    ensures var m := AskPeer(a, n, q, t).0;
      && q.hostA in a.links && Tracks(m, q.there, q.uid)
      && if Tracks(n, q.there, q.uid) then SameEnd(WireOf(m, q.there, q.uid), WireOf(n, q.there, q.uid))
         else IsEnd(WireOf(m, q.there, q.uid), q.there, q.uid, q.hostB) && MadeFor(WireOf(m, q.there, q.uid), q.here.nodeIp)
              && Recorded(m, q.there, q.uid, q.hostB, a.links[q.hostA], q.here.nodeIp)
  {
    hide StatusOf, Listed, Upsert, WireNode.Recorded;
    AddRemoteOutcome(own, n, RemoteDef(q, a.links[q.hostA]), q.hostB, t.remote);
    var m := AskPeer(a, n, q, t).0;
    if !Tracks(n, q.there, q.uid) { PutIsRecorded(n, m, WireOf(m, q.there, q.uid), q.there, q.uid, q.hostB); }
  }

  /** Nothing but channel, readiness and peer index differ. */
  predicate SameEnd(v: Wire, w: Wire) {
    v.(stop := w.stop, ready := w.ready, peerIfaceId := w.peerIfaceId) == w
  }

  lemma NearIsEnd(n: Node, q: Request, index: int)
    requires AddLocal(n, LocalDef(q, index)).1.Ok?
    ensures var m := AddLocal(n, LocalDef(q, index)).0;
      && Tracks(m, q.here, q.uid) && IsEnd(WireOf(m, q.here, q.uid), q.here, q.uid, q.hostA) && MadeHere(WireOf(m, q.here, q.uid))
      && Recorded(m, q.here, q.uid, q.hostA, index, q.there.nodeIp)
  {
    hide StatusOf, Listed, Upsert;
    AddLocalPuts(n, LocalDef(q, index));
    var m := AddLocal(n, LocalDef(q, index)).0;
    PutIsRecorded(n, m, WireOf(m, q.here, q.uid), q.here, q.uid, q.hostA);
  }

  /** After a successful exchange, whatever happened between its steps, this end's wire
      carries this pod's names and address, and a far end that was made by it carries
      the other pod's; both were recorded as such, with each other's index and node.
      A far end that was tracked already stays what it was. */
  lemma ExchangeMakesItsEnds(own: Owners, n: Pair, q: Request, w: Meanwhile, t: Trouble)
    requires Inv(own, n.local) && Inv(own, n.remote) && EndOwned(own, q.there) && Serialised(own, n, q, w, t)
    requires Exchange(n, q, w, t).1
    ensures var m := Exchange(n, q, w, t).0;
      && Tracks(m.local, q.here, q.uid) && Tracks(m.remote, q.there, q.uid)
      && IsEnd(WireOf(m.local, q.here, q.uid), q.here, q.uid, q.hostA) && MadeHere(WireOf(m.local, q.here, q.uid))
      && Recorded(m.local, q.here, q.uid, q.hostA, WireOf(m.remote, q.there, q.uid).ifaceId, q.there.nodeIp)
    ensures var b, m := Asking(n, q, w).remote, Exchange(n, q, w, t).0;
      if Tracks(b, q.there, q.uid) then SameEnd(WireOf(m.remote, q.there, q.uid), WireOf(b, q.there, q.uid))
      else IsEnd(WireOf(m.remote, q.there, q.uid), q.there, q.uid, q.hostB)
           && MadeFor(WireOf(m.remote, q.there, q.uid), q.here.nodeIp)
           && Recorded(Asked(n, q, w, t).0.remote, q.there, q.uid, q.hostB, WireOf(m.local, q.here, q.uid).ifaceId, q.here.nodeIp)
  {
    hide Inv, Serialised, Exchange, Asked, Registering, Asking, AskPeer, AddLocal, Recorded;
    ExchangeParts(n, q, w, t);
    StepsKeepInv(own, n, q, w, t);
    ExchangeConnects(own, n, q, w, t);
    var m, r, p := Asking(n, q, w), Asked(n, q, w, t).1, Registering(n, q, w, t);
    TablesOf(own, m.remote);
    FarIsEnd(own, m.remote, q, m.local, t);
    AskedAnswers(m.remote, q, m.local, t);
    NearIsEnd(p.local, q, r.index);
    FarEndStays(own, n, q, w, t);
  }

  lemma TablesOf(own: Owners, n: Node)
    requires Inv(own, n)
    ensures TableInv(n) && OwnersInv(own, n)
  {
  }

  /** If nothing else on the nodes is of the link, both records are there in the end. */
  lemma ExchangeRecordsItsEnds(own: Owners, n: Pair, q: Request, w: Meanwhile, t: Trouble)
    requires Durable(own, n.local) && Durable(own, n.remote) && EndOwned(own, q.here) && EndOwned(own, q.there)
    requires Serialised(own, n, q, w, t) && NamedApart(n, q, w, t) && OnlyEnds(n, q, w, t)
    requires Exchange(n, q, w, t).1 && !Tracks(Asking(n, q, w).remote, q.there, q.uid)
    ensures var m := Exchange(n, q, w, t).0;
      && Tracks(m.local, q.here, q.uid) && Tracks(m.remote, q.there, q.uid)
      && Recorded(m.local, q.here, q.uid, q.hostA, WireOf(m.remote, q.there, q.uid).ifaceId, q.there.nodeIp)
      && Recorded(m.remote, q.there, q.uid, q.hostB, WireOf(m.local, q.here, q.uid).ifaceId, q.here.nodeIp)
  {
    DurableHasInv(own, n.local);
    DurableHasInv(own, n.remote);
    hide Durable, Inv, Serialised, NamedApart, OnlyEnds, Exchange, Asked, Asking, SoleEnd, Recorded;
    ExchangeMakesItsEnds(own, n, q, w, t);
    ExchangeLasts(own, n, q, w, t);
    var m := Exchange(n, q, w, t).0;
    HeldIsRecorded(m.remote, WireOf(m.remote, q.there, q.uid), q.there, q.uid, q.hostB);
  }

  /** The call to the peer is answered if and only if it gets through, this end's veth is
      still there, and the peer has its end or can make it; a call that does not get
      through changes nothing there. */
  lemma AskPeerSucceedsIff(a: Node, b: Node, q: Request, t: Trouble)
    requires IndicesInv(b)
    ensures AskPeer(a, b, q, t).1.Ok? <==>
      && !t.noDial && q.hostA in a.links
      && (Tracks(b, q.there, q.uid) ||
          (!t.remote.badCidr && !t.remote.noVeth && !t.remote.noLookup && !t.remote.noOpen
           && Free(b, RemoteDef(q, a.links[q.hostA]), q.hostB, t.remote)))
    ensures t.noDial || q.hostA !in a.links ==> AskPeer(a, b, q, t).0 == b
  {
    hide AddRemote, Free;
    if q.hostA in a.links { RemoteSucceedsIff(b, RemoteDef(q, a.links[q.hostA]), q.hostB, t.remote); }
  }
}
