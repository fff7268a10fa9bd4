/** Runs in which the protocol leaves a link unmade, for every pair of pods that
    are linked to each other only. */
module LinkRaces {
  import opened Options
  import opened PodNames
  import opened TopologyStore
  import opened LinkProtocol
  import opened LinkInvariants

  ghost predicate Pair(t: Topology, hi: PodName, lo: PodName, u: int) {
    && WellFormed(t) && hi in t && lo in t && Greater(hi, lo) && !Greater(lo, hi)
    && t[hi] == [Link(lo, u)] && t[lo] == [Link(hi, u)]
  }

  lemma ReadNow(t: Topology, c: Cluster, p: PodName)
    requires Shape(t, c) && p in t && Committing(t, c, p)
    ensures Step(t, c, Fetch(p)) == WithProc(c, p, c.procs[p].(read := Some(c.store[Target(t, p, c.procs[p].phase)])))
  {
  }

  lemma UpdateNow(t: Topology, c: Cluster, p: PodName)
    requires Shape(t, c) && p in t && Committing(t, c, p)
    requires c.procs[p].read == Some(c.store[Target(t, p, c.procs[p].phase)])
    ensures Step(t, c, TryUpdate(p)) == Committed(t, c, p)
  {
  }

  lemma CommitIgnoresRead(t: Topology, c: Cluster, p: PodName, r: Option<Object>)
    requires Shape(t, c) && p in t && Committing(t, c, p)
    ensures var d := WithProc(c, p, c.procs[p].(read := r));
      Shape(t, d) && Committing(t, d, p) && Committed(t, d, p) == Committed(t, c, p)
  {
    var d := WithProc(c, p, c.procs[p].(read := r));
    assert d.procs[p := Committed(t, c, p).procs[p]] == c.procs[p := Committed(t, c, p).procs[p]];
  }

  /** A write that meets no rival. */
  lemma WriteNow(t: Topology, c: Cluster, p: PodName) returns (d: Cluster)
    requires Reachable(t, c) && p in t && Committing(t, c, p)
    ensures Reachable(t, d) && d == Committed(t, c, p)
  {
    var r := Some(c.store[Target(t, p, c.procs[p].phase)]);
    ReadNow(t, c, p);
    Extend(t, c, Fetch(p));
    var c1 := WithProc(c, p, c.procs[p].(read := r));
    CommitIgnoresRead(t, c, p, r);
    UpdateNow(t, c1, p);
    Extend(t, c1, TryUpdate(p));
    d := Committed(t, c, p);
  }

  lemma Begin(t: Topology, c: Cluster, p: PodName, l: Life) returns (d: Cluster)
    requires Reachable(t, c) && p in t && c.procs[p].phase == Down && Proper(l)
    ensures Reachable(t, d)
    ensures d == WithProc(c, p, Proc(Publishing(l), None, map[], c.procs[p].stopped, c.procs[p].built))
  {
    d := Step(t, c, BeginAdd(p, l));
    Extend(t, c, BeginAdd(p, l));
  }

  /** An ADD up to the point where the pod is published. */
  lemma Publish(t: Topology, c: Cluster, p: PodName, l: Life) returns (d: Cluster)
    requires Reachable(t, c) && p in t && t[p] != [] && c.procs[p].phase == Down && Proper(l)
    ensures Reachable(t, d)
    ensures d.store == c.store[p := Object(c.store[p].version + 1, c.store[p].status.(srcIp := l.srcIp, netNs := l.netNs, containerId := l.containerId))]
    ensures d.procs == c.procs[p := Proc(Walking(0), None, map[], None, c.procs[p].built)]
  {
    var c1 := Begin(t, c, p, l);
    d := WriteNow(t, c1, p);
  }

  /** A Skip that meets no rival. */
  lemma CommitSkip(t: Topology, c: Cluster, p: PodName, i: nat) returns (d: Cluster)
    requires Reachable(t, c) && p in t && i < |t[p]| && c.procs[p].phase == Skipping(i)
    ensures Reachable(t, d)
    ensures d.store == c.store[p := Object(c.store[p].version + 1,
      c.store[p].status.(skipped := c.store[p].status.skipped + [Skipped(t[p][i].peer, t[p][i].uid)]))]
    ensures d.procs == c.procs[p := c.procs[p].(phase := AfterLink(t, p, i + 1), read := None)]
  {
    d := WriteNow(t, c, p);
  }

  lemma LookUp(t: Topology, c: Cluster, p: PodName, i: nat) returns (d: Cluster)
    requires Reachable(t, c) && p in t && i < |t[p]| && c.procs[p].phase == Walking(i)
    ensures Reachable(t, d) && d.store == c.store
    ensures var peer := c.store[t[p][i].peer].status;
      d.procs == c.procs[p :=
        if Alive(peer) then c.procs[p].(phase := Deciding(i, peer.srcIp == c.store[p].status.srcIp))
        else c.procs[p].(phase := Skipping(i), read := None, outcomes := c.procs[p].outcomes[i := PeerDead])]
  {
    d := Step(t, c, LookUpPeer(p));
    Extend(t, c, LookUpPeer(p));
  }

  /** Deciding with neither end of the link in place. */
  lemma DecideNew(t: Topology, c: Cluster, p: PodName) returns (d: Cluster)
    requires Reachable(t, c) && p in t && c.procs[p].phase.Deciding? && c.procs[p].phase.at == 0 && |t[p]| == 1
    ensures Reachable(t, d) && d.store == c.store
    ensures var go := SkippedBy(c, t[p][0].peer, p, t[p][0].uid) || Greater(p, t[p][0].peer);
      d.procs == c.procs[p :=
        if go then c.procs[p].(phase := Up, outcomes := c.procs[p].outcomes[0 := Initiated], built := c.procs[p].built + {t[p][0]})
        else if c.procs[p].phase.sameNode then c.procs[p].(phase := Up, outcomes := c.procs[p].outcomes[0 := Deferred])
        else c.procs[p].(phase := Polling(0, 0))]
  {
    d := Step(t, c, Decide(p, false, false));
    Extend(t, c, Decide(p, false, false));
  }

  /** On a shared node the lower-priority pod decides at once. If it does so after
      the higher one has found it dead but before that pod's Skip is committed, both
      ADDs succeed and nobody has made the link. */
  lemma SharedNodeRace(t: Topology, hi: PodName, lo: PodName, u: int, l: Life) returns (c: Cluster)
    requires Pair(t, hi, lo, u) && Proper(l)
    ensures Reachable(t, c) && c.procs[hi].phase == Up && c.procs[lo].phase == Up
    ensures c.procs[hi].outcomes == map[0 := PeerDead] && c.procs[lo].outcomes == map[0 := Deferred]
  {
    InitIsReachable(t);
    c := Publish(t, Init(t), hi, l);
    c := LookUp(t, c, hi, 0);
    c := Publish(t, c, lo, l);
    c := LookUp(t, c, lo, 0);
    c := DecideNew(t, c, lo);
    c := CommitSkip(t, c, hi, 0);
  }

  lemma PollInVain(t: Topology, c: Cluster, p: PodName) returns (d: Cluster)
    requires Reachable(t, c) && p in t && |t[p]| == 1
    requires c.procs[p].phase.Polling? && c.procs[p].phase.at == 0
    requires !SkippedBy(c, t[p][0].peer, p, t[p][0].uid)
    ensures Reachable(t, d) && d.store == c.store
    ensures var k := c.procs[p].phase.polls + 1;
      d.procs == c.procs[p := if k == RETRY_COUNT then c.procs[p].(phase := Up, outcomes := c.procs[p].outcomes[0 := GaveUp])
                              else c.procs[p].(phase := Polling(0, k))]
  {
    d := Step(t, c, Poll(p, false, false));
    Extend(t, c, Poll(p, false, false));
  }

  /** Over gRPC, n more polls that find neither the wire nor a skip entry. */
  lemma {:induction false} KeepPolling(t: Topology, c: Cluster, p: PodName, n: nat) returns (d: Cluster)
    requires Reachable(t, c) && p in t && |t[p]| == 1
    requires c.procs[p].phase.Polling? && c.procs[p].phase.at == 0 && c.procs[p].phase.polls + n == RETRY_COUNT && n > 0
    requires !SkippedBy(c, t[p][0].peer, p, t[p][0].uid)
    ensures Reachable(t, d) && d.store == c.store
    ensures d.procs[p].phase == Up && d.procs[p].outcomes == c.procs[p].outcomes[0 := GaveUp]
    ensures forall q :: q in t && q != p ==> d.procs[q] == c.procs[q]
    decreases n
  {
    var c1 := PollInVain(t, c, p);
    if n == 1 {
      d := c1;
    } else {
      d := KeepPolling(t, c1, p, n - 1);
    }
  }

  /** Over gRPC the same happens to a lower pod that uses up its polls while the higher
      one's Skip is under way. */
  lemma PollRace(t: Topology, hi: PodName, lo: PodName, u: int, l: Life, m: Life) returns (c: Cluster)
    requires Pair(t, hi, lo, u) && Proper(l) && Proper(m) && l.srcIp != m.srcIp
    ensures Reachable(t, c) && c.procs[hi].phase == Up && c.procs[lo].phase == Up
    ensures c.procs[hi].outcomes == map[0 := PeerDead] && c.procs[lo].outcomes == map[0 := GaveUp]
  {
    InitIsReachable(t);
    c := Publish(t, Init(t), hi, l);
    c := LookUp(t, c, hi, 0);
    c := Publish(t, c, lo, m);
    c := LookUp(t, c, lo, 0);
    c := DecideNew(t, c, lo);
    c := KeepPolling(t, c, lo, RETRY_COUNT);
    c := CommitSkip(t, c, hi, 0);
  }

  /** One call for one link removes a second pair, in a list that really arises: that of
      a pod with two links to a peer that is not there yet. */
  lemma SecondPairForgotten(t: Topology, p: PodName, q: PodName, u: int, v: int, l: Life) returns (c: Cluster)
    requires WellFormed(t) && p in t && q in t && p != q && u != v && t[p] == [Link(q, u), Link(q, v)] && Proper(l)
    ensures Reachable(t, c) && c.procs[p].phase == Up
    ensures c.store[p].status.skipped == [Skipped(q, u), Skipped(q, v)]
    ensures Skipped(q, v) !in Kept(c.store[p].status.skipped, q, u)
  {
    InitIsReachable(t);
    c := Publish(t, Init(t), p, l);
    c := SkipDead(t, c, p, 0);
    c := SkipDead(t, c, p, 1);
  }

  lemma SkipDead(t: Topology, c: Cluster, p: PodName, i: nat) returns (d: Cluster)
    requires Reachable(t, c) && p in t && i < |t[p]| && c.procs[p].phase == Walking(i) && !Alive(c.store[t[p][i].peer].status)
    ensures Reachable(t, d) && d.procs[p].phase == AfterLink(t, p, i + 1)
    ensures d.store[p].status.skipped == c.store[p].status.skipped + [Skipped(t[p][i].peer, t[p][i].uid)]
    ensures forall q :: q in t && q != p ==> d.store[q] == c.store[q]
  {
    d := LookUp(t, c, p, i);
    d := CommitSkip(t, d, p, i);
  }
}
