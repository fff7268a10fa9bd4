/** The plugin's part in making a gRPC link: its own veth, then a call to each of the two
    daemons. */
module WirePlugin {
  import opened WireNode
  import opened Handshake
  import opened WireDaemon

  /** Makes the veth of this end; nothing happens on the peer. */
  method MakeOwnVeth(local: Daemon, remote: Daemon, q: Request) returns (ok: bool)
    requires local != remote && local.Valid()
    modifies local`links, local`pods, local`nextIndex
    ensures (local.View(), ok) == Begin(old(local.View()), q) && remote.View() == old(remote.View())
  {
    if IfaceOf(q.here) in local.pods || q.hostA in local.links {
      return false;
    }
    var _ := local.MakeVethPair(IfaceOf(q.here), q.hostA);
    return true;
  }

  /** Looks the new interface up and has the peer make its end; nothing happens on this
      node. */
  method CallPeer(local: Daemon, remote: Daemon, q: Request, t: Trouble) returns (far: Result)
    requires local != remote && local.Valid() && remote.Valid() && local.wires.Values !! remote.wires.Values
    modifies remote, remote.wires.Values
    ensures remote.Valid() && (remote.View(), far) == AskPeer(local.View(), old(remote.View()), q, t)
    ensures local.View() == old(local.View())
  {
    if t.noDial {
      return Err;
    }
    if q.hostA !in local.links {
      return Err;
    }
    far := remote.CreateUpdateGRPCWireRemoteTriggered(RemoteDef(q, local.links[q.hostA]), q.hostB, t.remote);
  }

  /** Registers this end; nothing happens on the peer. */
  method RegisterLocal(local: Daemon, remote: Daemon, q: Request, index: int) returns (near: Result)
    requires local != remote && local.Valid()
    modifies local
    ensures local.Valid() && (local.View(), near) == AddLocal(old(local.View()), LocalDef(q, index))
    ensures remote.View() == old(remote.View())
  {
    near := local.CreateGRPCWireLocal(LocalDef(q, index));
  }

  /** The steps in their order, with nothing in between: the peer's end is made first,
      then the local end is registered with the index the peer answered. */
  method CreatGRPCChan(local: Daemon, remote: Daemon, q: Request, t: Trouble) returns (ok: bool)
    requires local != remote && local.Valid() && remote.Valid() && local.wires.Values !! remote.wires.Values
    modifies local, remote, remote.wires.Values
    ensures local.Valid() && remote.Valid()
    ensures (Pair(local.View(), remote.View()), ok) == Exchange(Pair(old(local.View()), old(remote.View())), q, NOTHING, t)
  {
    hide AddLocal, AskPeer;
    var begun := MakeOwnVeth(local, remote, q);
    if !begun {
      return false;
    }
    var far := CallPeer(local, remote, q, t);
    if far.Err? {
      return false;
    }
    var near := RegisterLocal(local, remote, q, far.index);
    return near.Ok?;
  }
}
