/** The topology objects shared by all nodes: the status kept for every pod,
    the writes the daemon applies to it, and the optimistic write loop. */
module TopologyStore {
  import opened PodNames

  /** One entry of a pod's skip list. */
  datatype Skipped = Skipped(podName: PodName, linkId: int)

  datatype Status = Status(srcIp: string, netNs: string, containerId: string, skipped: seq<Skipped>)

  /** A stored object and the version that guards its updates. */
  datatype Object = Object(version: nat, status: Status)

  predicate Alive(s: Status) {
    s.srcIp != "" && s.netNs != ""
  }

  const BLANK := Status("", "", "", [])

  /** The four ways the daemon rewrites a pod's status. */
  datatype Write =
    | SetLife(srcIp: string, netNs: string, containerId: string)
    | Append(entry: Skipped)
    | AddIfAbsent(entry: Skipped)
    | Forget(peer: PodName, linkId: int)

  /** An entry survives a reverse skip only if both of its fields differ. */
  predicate Survives(e: Skipped, peer: PodName, linkId: int) {
    e.podName != peer && e.linkId != linkId
  }

  function Kept(list: seq<Skipped>, peer: PodName, linkId: int): (r: seq<Skipped>)
    ensures forall e :: e in r <==> e in list && Survives(e, peer, linkId)
  {
    if list == [] then []
    else
      var rest := Kept(list[..|list| - 1], peer, linkId);
      var last := list[|list| - 1];
      assert list == list[..|list| - 1] + [last];
      if Survives(last, peer, linkId) then rest + [last] else rest
  }

  /** The list without one pair: what a reverse skip is said to leave. */
  function Without(list: seq<Skipped>, pair: Skipped): (r: seq<Skipped>)
    ensures forall e :: e in r <==> e in list && e != pair
  {
    if list == [] then []
    else
      var rest := Without(list[..|list| - 1], pair);
      var last := list[|list| - 1];
      assert list == list[..|list| - 1] + [last];
      if last != pair then rest + [last] else rest
  }

  /** No other entry has the peer or the link of the pair. */
  predicate OnlyPairOf(list: seq<Skipped>, peer: PodName, linkId: int) {
    forall e :: e in list && (e.podName == peer || e.linkId == linkId) ==> e == Skipped(peer, linkId)
  }

  lemma {:induction false} KeptIsWithout(list: seq<Skipped>, peer: PodName, linkId: int)
    requires OnlyPairOf(list, peer, linkId)
    ensures Kept(list, peer, linkId) == Without(list, Skipped(peer, linkId))
  {
    if list != [] {
      var front, last := list[..|list| - 1], list[|list| - 1];
      assert list == front + [last] && last in list;
      KeptIsWithout(front, peer, linkId);
    }
  }

  /** A reverse skip removes just the pair if and only if no other entry has its peer or
      its link. */
  lemma RemovesOnePairIff(list: seq<Skipped>, peer: PodName, linkId: int)
    ensures Kept(list, peer, linkId) == Without(list, Skipped(peer, linkId)) <==> OnlyPairOf(list, peer, linkId)
  {
    if OnlyPairOf(list, peer, linkId) {
      KeptIsWithout(list, peer, linkId);
    } else {
      var e :| e in list && (e.podName == peer || e.linkId == linkId) && e != Skipped(peer, linkId);
      assert e in Without(list, Skipped(peer, linkId)) && e !in Kept(list, peer, linkId);
    }
  }

  function Apply(w: Write, s: Status): Status {
    match w
    case SetLife(ip, ns, id) => s.(srcIp := ip, netNs := ns, containerId := id)
    case Append(e) => s.(skipped := s.skipped + [e])
    case AddIfAbsent(e) => if e in s.skipped then s else s.(skipped := s.skipped + [e])
    case Forget(peer, id) => s.(skipped := Kept(s.skipped, peer, id))
  }

  /** An announcement adds its entry unless the list has it, and a repeated one adds nothing;
      the entries that are there stay where they are. */
  lemma AnnouncedOnce(e: Skipped, s: Status)
    ensures var r := Apply(AddIfAbsent(e), s);
      && s.skipped <= r.skipped && multiset(r.skipped)[e] == (if e in s.skipped then multiset(s.skipped)[e] else 1)
      && |r.skipped| <= |s.skipped| + 1 && Apply(AddIfAbsent(e), r) == r
      && r == s.(skipped := r.skipped)
  {
    assert e in s.skipped <==> e in multiset(s.skipped);
  }

  function ApplyAll(ws: seq<Write>, s: Status): Status {
    if ws == [] then s else Apply(ws[|ws| - 1], ApplyAll(ws[..|ws| - 1], s))
  }

  lemma {:induction false} ApplyAllConcat(ws: seq<Write>, vs: seq<Write>, s: Status)
    ensures ApplyAll(ws + vs, s) == ApplyAll(vs, ApplyAll(ws, s))
  {
    if vs == [] {
      assert ws + vs == ws;
    } else {
      assert (ws + vs)[..|ws + vs| - 1] == ws + vs[..|vs| - 1];
      ApplyAllConcat(ws, vs[..|vs| - 1], s);
    }
  }

  /** IsSkipped's search, also used by SkipReverse before it appends. */
  method Find(list: seq<Skipped>, pod: PodName, linkId: int) returns (found: bool)
    ensures found <==> Skipped(pod, linkId) in list
  {
    found := false;
    for i := 0 to |list|
      invariant !found
      invariant Skipped(pod, linkId) !in list[..i]
    {
      if list[i].podName == pod && list[i].linkId == linkId {
        return true;
      }
    }
  }

  /** The loop that rebuilds a pod's own list in the second half of SkipReverse. */
  method ForgetLoop(list: seq<Skipped>, peer: PodName, linkId: int) returns (kept: seq<Skipped>)
    ensures kept == Kept(list, peer, linkId)
  {
    kept := [];
    for i := 0 to |list|
      invariant kept == Kept(list[..i], peer, linkId)
    {
      assert list[..i + 1][..i] == list[..i];
      if list[i].podName != peer && list[i].linkId != linkId {
        kept := kept + [list[i]];
      }
    }
    assert list[..|list|] == list;
  }

  /** How often a conflicting write is attempted. */
  const ATTEMPTS := 5

  /** `PeerDown`: the first half of SkipReverse found its target not alive and wrote nothing. */
  datatype Answer = Done | PeerDown | NoSuchPod | Conflict

  /** The object after the writes `ws` were committed to it, one version each. */
  function After(o: Object, ws: seq<Write>): Object {
    Object(o.version + |ws|, ApplyAll(ws, o.status))
  }

  lemma AfterConcat(o: Object, ws: seq<Write>, vs: seq<Write>)
    ensures After(After(o, ws), vs) == After(o, ws + vs)
  {
    ApplyAllConcat(ws, vs, o.status);
  }

  /** Everything the rivals of the first n attempts commit, in order. */
  function Flatten(rivals: seq<seq<Write>>, n: nat): seq<Write>
    requires n <= |rivals|
  {
    if n == 0 then [] else Flatten(rivals, n - 1) + rivals[n - 1]
  }

  /** Attempt i is made on this object: every earlier one met a rival. */
  function Seen(o: Object, rivals: seq<seq<Write>>, i: nat): Object
    requires i <= |rivals|
  {
    After(o, Flatten(rivals, i))
  }

  lemma NothingAfter(o: Object)
    ensures After(o, []) == o
  {
  }

  lemma SeenGrows(o: Object, rivals: seq<seq<Write>>, i: nat)
    requires i < |rivals|
    ensures Seen(o, rivals, 0) == o && Seen(o, rivals, i + 1) == After(Seen(o, rivals, i), rivals[i])
  {
    AfterConcat(o, Flatten(rivals, i), rivals[i]);
  }

  /** Attempt number i was made and met a rival, on a target that was worth telling. */
  predicate Missed(o: Object, w: Write, rivals: seq<seq<Write>>, i: nat)
    requires i < |rivals|
  {
    rivals[i] != [] && (w.AddIfAbsent? ==> Alive(Seen(o, rivals, i).status))
  }

  /** What the two halves of a reverse skip leave. */
  lemma OnceMore(o: Object, w: Write)
    ensures After(o, [w]).status == Apply(w, o.status)
    ensures w.AddIfAbsent? ==> w.entry in Apply(w, o.status).skipped && (Alive(Apply(w, o.status)) <==> Alive(o.status))
    ensures w.Forget? ==> forall e :: e in Apply(w, o.status).skipped ==> Survives(e, w.peer, w.linkId)
  {
    assert [w][..0] == [] && ApplyAll([w], o.status) == Apply(w, ApplyAll([], o.status));
  }

  /** Some attempt meets no rival. */
  predicate Unopposed(rivals: seq<seq<Write>>) {
    exists i :: 0 <= i < |rivals| && rivals[i] == []
  }

  /** Some attempt meets no rival, or finds the pod dead. */
  predicate Heard(o: Object, rivals: seq<seq<Write>>) {
    exists i :: 0 <= i < |rivals| && (rivals[i] == [] || !Alive(Seen(o, rivals, i).status))
  }

  lemma AllMissed(o: Object, w: Write, rivals: seq<seq<Write>>, n: nat)
    requires n <= |rivals| && forall i :: 0 <= i < n ==> Missed(o, w, rivals, i)
    ensures n == |rivals| ==> !Unopposed(rivals) && (w.AddIfAbsent? ==> !Heard(o, rivals))
    ensures n > 0 ==> rivals[0] != []
  {
    hide Seen;
    forall i | 0 <= i < n ensures rivals[i] != [] && (w.AddIfAbsent? ==> Alive(Seen(o, rivals, i).status)) { assert Missed(o, w, rivals, i); }
  }

  /** The daemon's view of the store. */
  class Client {
    var objects: map<PodName, Object>

    constructor (objects: map<PodName, Object>)
      ensures this.objects == objects
    {
      this.objects := objects;
    }

    /** The store accepts a write only against the version that was read. */
    method Update(name: PodName, read: Object, status: Status) returns (ok: bool)
      requires name in objects
      modifies this
      ensures ok == (old(objects)[name].version == read.version)
      ensures objects == if ok then old(objects)[name := Object(read.version + 1, status)] else old(objects)
    {
      ok := objects[name].version == read.version;
      if ok {
        objects := objects[name := Object(read.version + 1, status)];
      }
    }

    /** Rewrites a status as one attempt does, with the loops of the daemon. */
    method Rewrite(w: Write, s: Status) returns (r: Status)
      ensures r == Apply(w, s)
    {
      match w
      case SetLife(ip, ns, id) => r := s.(srcIp := ip, netNs := ns, containerId := id);
      case Append(e) => r := s.(skipped := s.skipped + [e]);
      case AddIfAbsent(e) =>
        var found := Find(s.skipped, e.podName, e.linkId);
        r := if found then s else s.(skipped := s.skipped + [e]);
      case Forget(peer, id) =>
        var kept := ForgetLoop(s.skipped, peer, id);
        r := s.(skipped := kept);
    }

    /** One attempt. `rival` is what other daemons commit to the object between
        the read and the write: the write goes through exactly when that is nothing. */
    method Attempt(name: PodName, w: Write, rival: seq<Write>) returns (ok: bool)
      requires name in objects
      modifies this
      ensures ok <==> rival == []
      ensures objects == old(objects)[name := After(old(objects)[name], if ok then [w] else rival)]
    {
      var read := objects[name];
      var status := Rewrite(w, read.status);
      objects := objects[name := After(read, rival)];
      ok := Update(name, read, status);
      assert ok ==> ApplyAll([w], read.status) == Apply(w, ApplyAll([], read.status));
    }

    /** RetryOnConflict around get, rewrite and update. Whatever the rivals do,
        nothing they committed is lost; this write is applied at most once, on top
        of all of theirs, and it is missing only if the pod does not exist, the
        target was read dead, or every attempt met a rival. The attempts before
        the last one all met a rival and a live target. */
    method WriteWithRetry(name: PodName, w: Write, rivals: seq<seq<Write>>) returns (a: Answer, ghost tries: nat)
      requires |rivals| == ATTEMPTS
      modifies this
      ensures a == NoSuchPod <==> name !in old(objects)
      ensures a == NoSuchPod ==> objects == old(objects)
      ensures tries <= ATTEMPTS && (a != NoSuchPod ==> (a == Conflict <==> tries == ATTEMPTS))
      ensures a == Conflict ==> tries == 5
      ensures a != NoSuchPod ==>
        objects == old(objects)[name := After(Seen(old(objects)[name], rivals, tries), if a == Done then [w] else [])]
      ensures a != NoSuchPod ==> forall i :: 0 <= i < tries ==> Missed(old(objects)[name], w, rivals, i)
      ensures a == Done ==> rivals[tries] == []
      ensures a == PeerDown ==> w.AddIfAbsent?
      ensures a in {Done, PeerDown} && w.AddIfAbsent? ==> (a == PeerDown <==> !Alive(Seen(old(objects)[name], rivals, tries).status))
    {
      hide Flatten, ApplyAll, Alive, Apply, Seen;
      tries := 0;
      if name !in objects {
        return NoSuchPod, 0;
      }
      ghost var o := objects[name];
      SeenGrows(o, rivals, 0);
      assert objects == objects[name := o];
      for i := 0 to ATTEMPTS
        invariant tries == i && name in old(objects) && o == old(objects)[name]
        invariant objects == old(objects)[name := Seen(o, rivals, i)]
        invariant forall j :: 0 <= j < i ==> Missed(o, w, rivals, j)
      {
        NothingAfter(Seen(o, rivals, i));
        if w.AddIfAbsent? && !Alive(objects[name].status) {
          return PeerDown, i;
        }
        SeenGrows(o, rivals, i);
        var ok := Attempt(name, w, rivals[i]);
        if ok {
          return Done, i;
        }
        tries := i + 1;
      }
      NothingAfter(Seen(o, rivals, ATTEMPTS));
      return Conflict, ATTEMPTS;
    }

    /** Called once per link when a pod is deleted. It succeeds exactly if both pods exist,
        the peer can be told or is found dead, and this pod's own list can be
        rewritten. Then a live peer has this pod in its skip list, a dead one is left
        alone, and this pod's own list has lost every entry that names the peer or the
        link, whatever other daemons wrote meanwhile. m and k are the attempts that
        met a rival. */
    method SkipReverse(pod: PodName, peer: PodName, linkId: int, peerRivals: seq<seq<Write>>, ownRivals: seq<seq<Write>>)
      returns (ok: bool, ghost m: nat, ghost k: nat)
      requires pod != peer
      requires |peerRivals| == |ownRivals| == ATTEMPTS
      modifies this
      ensures m <= ATTEMPTS && k <= ATTEMPTS
      ensures ok <==> pod in old(objects) && peer in old(objects) && Heard(old(objects)[peer], peerRivals) && Unopposed(ownRivals)
      ensures ok ==>
        var o := Seen(old(objects)[peer], peerRivals, m);
        && objects.Keys == old(objects).Keys
        && objects[peer] == (if o.status.srcIp != "" && o.status.netNs != "" then After(o, [AddIfAbsent(Skipped(pod, linkId))]) else o)
        && objects[pod] == After(Seen(old(objects)[pod], ownRivals, k), [Forget(peer, linkId)])
      ensures ok && Alive(objects[peer].status) ==> Skipped(pod, linkId) in objects[peer].status.skipped
      ensures ok ==> forall e :: e in objects[pod].status.skipped ==> Survives(e, peer, linkId)
      ensures pod in old(objects) && peer in old(objects) && peerRivals[0] == ownRivals[0] == [] ==> ok && m == k == 0
      ensures peer in old(objects) && !Heard(old(objects)[peer], peerRivals) && pod in old(objects) ==> pod in objects && objects[pod] == old(objects)[pod]
      ensures forall n :: n in objects && n != pod && n != peer ==> n in old(objects) && objects[n] == old(objects)[n]
    {
      hide Flatten, ApplyAll, Apply, Seen, Missed;
      k := 0;
      var a;
      a, m := WriteWithRetry(peer, AddIfAbsent(Skipped(pod, linkId)), peerRivals);
      if a != NoSuchPod { AllMissed(old(objects)[peer], AddIfAbsent(Skipped(pod, linkId)), peerRivals, m); }
      if a != Done && a != PeerDown {
        return false, m, 0;
      }
      ghost var o := old(objects)[peer];
      NothingAfter(Seen(o, peerRivals, m));
      OnceMore(Seen(o, peerRivals, m), AddIfAbsent(Skipped(pod, linkId)));
      assert Heard(o, peerRivals);
      a, k := WriteWithRetry(pod, Forget(peer, linkId), ownRivals);
      if a != NoSuchPod { AllMissed(old(objects)[pod], Forget(peer, linkId), ownRivals, k); }
      if a == Done { OnceMore(Seen(old(objects)[pod], ownRivals, k), Forget(peer, linkId)); }
      return a == Done, m, k;
    }
  }
}
