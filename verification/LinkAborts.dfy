/** A DEL that fails after it marked its pod dead, at any link. */
module LinkAborts {
  import opened Options
  import opened PodNames
  import opened TopologyStore
  import opened LinkProtocol
  import opened LinkInvariants
  import opened LinkOutcomes
  import opened LinkOrigins
  import opened LinkTheorems
  import opened LinkRaces

  lemma BeginDelNow(t: Topology, c: Cluster, p: PodName) returns (d: Cluster)
    requires Reachable(t, c) && p in t && c.procs[p].phase == Up && c.store[p].status.containerId != ""
    ensures Reachable(t, d)
    ensures d.store == c.store && d.procs == c.procs[p := c.procs[p].(phase := Retiring, read := None)]
  {
    d := Step(t, c, BeginDel(p, c.store[p].status.containerId));
    Extend(t, c, BeginDel(p, c.store[p].status.containerId));
  }

  lemma RetireNow(t: Topology, c: Cluster, p: PodName) returns (d: Cluster)
    requires Reachable(t, c) && p in t && t[p] != [] && c.procs[p].phase == Retiring
    ensures Reachable(t, d)
    ensures d.store == c.store[p := Object(c.store[p].version + 1, c.store[p].status.(srcIp := "", netNs := "", containerId := ""))]
    ensures d.procs == c.procs[p := c.procs[p].(phase := Informing(0), read := None)]
  {
    d := WriteNow(t, c, p);
  }

  ghost predicate LivesOn(c: Cluster, d: Cluster, q: PodName)
    requires q in c.procs && q in c.store && q in d.procs && q in d.store
  {
    d.procs[q] == c.procs[q] && d.store[q].status == c.store[q].status.(skipped := d.store[q].status.skipped)
  }

  /** d differs from c only in p's part and in the lists of other pods. */
  ghost predicate OthersLive(t: Topology, c: Cluster, d: Cluster, p: PodName)
    requires Shape(t, c) && Shape(t, d)
  {
    forall q {:trigger LivesOn(c, d, q)} :: q in t && q != p ==> LivesOn(c, d, q)
  }

  ghost predicate ToldLink(t: Topology, c: Cluster, d: Cluster, p: PodName, k: nat, m: nat)
    requires Shape(t, c) && Shape(t, d) && p in t && m < |t[p]|
  {
    var l := t[p][m];
    SkippedBy(d, l.peer, p, l.uid) <==> SkippedBy(c, l.peer, p, l.uid) || (m < k && Alive(c.store[l.peer].status))
  }

  /** The DEL of p has told exactly the live peers of its first k links, since c. */
  ghost predicate ToldUpTo(t: Topology, c: Cluster, d: Cluster, p: PodName, k: nat)
    requires Shape(t, c) && Shape(t, d) && p in t
  {
    forall m :: 0 <= m < |t[p]| ==> ToldLink(t, c, d, p, k, m)
  }

  /** Link i is announced, to a live peer by an entry in its list. */
  lemma InformNow(t: Topology, c: Cluster, p: PodName, i: nat) returns (d: Cluster)
    requires Reachable(t, c) && p in t && i < |t[p]| && c.procs[p].phase == Informing(i)
    ensures Reachable(t, d) && d.procs == c.procs[p := c.procs[p].(phase := Forgetting(i), read := None)]
    ensures var q := t[p][i].peer;
      if Alive(c.store[q].status) then
        d.store == c.store[q := Object(c.store[q].version + 1, Apply(AddIfAbsent(Skipped(p, t[p][i].uid)), c.store[q].status))]
      else d.store == c.store
  {
    hide Follows;
    if Alive(c.store[t[p][i].peer].status) {
      d := WriteNow(t, c, p);
    } else {
      d := PassDead(t, c, p, i);
    }
  }

  lemma PassDead(t: Topology, c: Cluster, p: PodName, i: nat) returns (d: Cluster)
    requires Reachable(t, c) && p in t && i < |t[p]| && c.procs[p].phase == Informing(i) && !Alive(c.store[t[p][i].peer].status)
    ensures Reachable(t, d) && d.store == c.store && d.procs == c.procs[p := c.procs[p].(phase := Forgetting(i), read := None)]
  {
    d := Step(t, c, Fetch(p));
    Extend(t, c, Fetch(p));
  }

  lemma ForgetNow(t: Topology, c: Cluster, p: PodName, i: nat) returns (d: Cluster)
    requires Reachable(t, c) && p in t && i + 1 < |t[p]| && c.procs[p].phase == Forgetting(i)
    ensures Reachable(t, d) && d.procs == c.procs[p := c.procs[p].(phase := Informing(i + 1), read := None)]
    ensures d.store == c.store[p := Object(c.store[p].version + 1, Apply(Forget(t[p][i].peer, t[p][i].uid), c.store[p].status))]
  {
    hide WellFormed, Follows;
    d := WriteNow(t, c, p);
  }

  lemma InformingTells(t: Topology, c0: Cluster, c: Cluster, d: Cluster, p: PodName, i: nat)
    requires Shape(t, c0) && Shape(t, c) && Shape(t, d) && p in t && i < |t[p]|
    requires OthersLive(t, c0, c, p) && ToldUpTo(t, c0, c, p, i)
    requires forall q :: q in t && q != p ==> d.procs[q] == c.procs[q]
    requires var q := t[p][i].peer;
      if Alive(c.store[q].status) then
        d.store == c.store[q := Object(c.store[q].version + 1, Apply(AddIfAbsent(Skipped(p, t[p][i].uid)), c.store[q].status))]
      else d.store == c.store
    ensures OthersLive(t, c0, d, p) && ToldUpTo(t, c0, d, p, i + 1) && d.store[p] == c.store[p]
  {
    forall q | q in t && q != p ensures LivesOn(c0, d, q) { assert LivesOn(c0, c, q); }
    var k := i + 1;
    forall m | 0 <= m < |t[p]| ensures ToldLink(t, c0, d, p, k, m) {
      assert ToldLink(t, c0, c, p, i, m) && LivesOn(c0, c, t[p][i].peer);
      assert DistinctUids(t[p]) && (t[p][m].uid == t[p][i].uid ==> m == i);
    }
  }

  lemma OwnWriteTellsNobody(t: Topology, c0: Cluster, c: Cluster, d: Cluster, p: PodName, k: nat, o: Object)
    requires Shape(t, c0) && Shape(t, c) && Shape(t, d) && p in t
    requires OthersLive(t, c0, c, p) && ToldUpTo(t, c0, c, p, k)
    requires (forall q :: q in t && q != p ==> d.procs[q] == c.procs[q]) && d.store == c.store[p := o]
    ensures OthersLive(t, c0, d, p) && ToldUpTo(t, c0, d, p, k)
  {
    forall q | q in t && q != p ensures LivesOn(c0, d, q) { assert LivesOn(c0, c, q); }
    forall m | 0 <= m < |t[p]| ensures ToldLink(t, c0, d, p, k, m) { assert ToldLink(t, c0, c, p, k, m); }
  }

  lemma NobodyToldYet(t: Topology, c: Cluster, p: PodName)
    requires Shape(t, c) && p in t
    ensures OthersLive(t, c, c, p) && ToldUpTo(t, c, c, p, 0)
  {
  }

  /** d is c after a DEL of p that has announced its first k links. */
  ghost predicate DelIsAt(t: Topology, c: Cluster, d: Cluster, p: PodName, ph: Phase, k: nat)
    requires Shape(t, c) && p in t
  {
    && Reachable(t, d) && d.procs[p].phase == ph && d.store[p].status.containerId == ""
    && OthersLive(t, c, d, p) && ToldUpTo(t, c, d, p, k)
  }

  lemma DelToFirst(t: Topology, c: Cluster, p: PodName) returns (d: Cluster)
    requires Reachable(t, c) && p in t && t[p] != [] && c.procs[p].phase == Up && c.store[p].status.containerId != ""
    ensures DelIsAt(t, c, d, p, Informing(0), 0)
  {
    var c1 := BeginDelNow(t, c, p);
    d := RetireNow(t, c1, p);
    NobodyToldYet(t, c, p);
    OwnWriteTellsNobody(t, c, c, d, p, 0, d.store[p]);
  }

  lemma InformOne(t: Topology, c: Cluster, d: Cluster, p: PodName, k: nat) returns (e: Cluster)
    requires Shape(t, c) && p in t && k < |t[p]| && DelIsAt(t, c, d, p, Informing(k), k)
    ensures DelIsAt(t, c, e, p, Forgetting(k), k + 1)
  {
    e := InformNow(t, d, p, k);
    InformingTells(t, c, d, e, p, k);
  }

  lemma ForgetOne(t: Topology, c: Cluster, d: Cluster, p: PodName, k: nat) returns (e: Cluster)
    requires Shape(t, c) && p in t && k + 1 < |t[p]| && DelIsAt(t, c, d, p, Forgetting(k), k + 1)
    ensures DelIsAt(t, c, e, p, Informing(k + 1), k + 1)
  {
    e := ForgetNow(t, d, p, k);
    OwnWriteTellsNobody(t, c, d, e, p, k + 1, e.store[p]);
  }

  lemma DelGoesOn(t: Topology, c: Cluster, d: Cluster, p: PodName, k: nat) returns (e: Cluster)
    requires Shape(t, c) && p in t && k + 1 < |t[p]| && DelIsAt(t, c, d, p, Informing(k), k)
    ensures DelIsAt(t, c, e, p, Informing(k + 1), k + 1)
  {
    var f := InformOne(t, c, d, p, k);
    e := ForgetOne(t, c, f, p, k);
  }

  /** A DEL up to the announcement of link k. */
  lemma {:induction false} DelUpTo(t: Topology, c: Cluster, p: PodName, k: nat) returns (d: Cluster)
    requires Reachable(t, c) && p in t && k < |t[p]| && c.procs[p].phase == Up && c.store[p].status.containerId != ""
    ensures DelIsAt(t, c, d, p, Informing(k), k)
    decreases k
  {
    hide Shape, OthersLive, ToldUpTo;
    if k == 0 {
      d := DelToFirst(t, c, p);
    } else {
      d := DelUpTo(t, c, p, k - 1);
      d := DelGoesOn(t, c, d, p, k - 1);
    }
  }

  /** A DEL for a pod that is already marked dead is taken for a duplicate. */
  lemma RepeatedDelIsIgnored(t: Topology, c: Cluster, p: PodName, id: string)
    requires Shape(t, c) && p in t && c.store[p].status.containerId == ""
    ensures Step(t, c, BeginDel(p, id)) == c
  {
    assert c.procs[p := c.procs[p]] == c.procs;
  }

  /** A DEL can stop at any link k. It has then told exactly the live peers of the links
      before k, and nobody will tell the others: every repeated DEL is taken for a
      duplicate, as the recorded container is gone. */
  lemma DelStopsAnywhere(t: Topology, c: Cluster, p: PodName, k: nat) returns (d: Cluster)
    requires Reachable(t, c) && p in t && k < |t[p]| && c.procs[p].phase == Up && c.store[p].status.containerId != ""
    ensures Reachable(t, d) && d.procs[p].phase == Down && d.procs[p].stopped == Some(k)
    ensures OthersLive(t, c, d, p) && ToldUpTo(t, c, d, p, k)
    ensures forall id :: Step(t, d, BeginDel(p, id)) == d
  {
    var e := DelUpTo(t, c, p, k);
    Extend(t, e, FailDel(p));
    d := Step(t, e, FailDel(p));
    assert d.store == e.store && d.store == e.store[p := e.store[p]];
    OwnWriteTellsNobody(t, c, e, d, p, k, e.store[p]);
    forall id ensures Step(t, d, BeginDel(p, id)) == d { RepeatedDelIsIgnored(t, d, p, id); }
  }

  /** While b is up, a comes back from c, with an ADD that goes on with es. */
  ghost predicate ComesBack(t: Topology, c: Cluster, a: PodName, b: PodName, life: Life, es: seq<Event>)
    requires Shape(t, c) && a in t && b in t
  {
    Proper(life) && c.procs[a].phase == Down && Undisturbed(t, Step(t, c, BeginAdd(a, life)), es, a, b)
  }

  /** After the run, link m of p is there if and only if p may make it, or found something of it. */
  ghost predicate HasItIff(t: Topology, c: Cluster, es: seq<Event>, p: PodName, m: nat, may: bool)
    requires Shape(t, c) && p in t && m < |t[p]|
  {
    var d := Exec(t, c, es);
    && (m in d.procs[p].outcomes ==> (MadeIt(d, p, m) <==> may || FoundIn(t, c, es, p, m)))
    && (d.procs[p].phase == Up ==> m in d.procs[p].outcomes)
  }

  /** Whatever happens before p comes back, and whatever its ADD meets then, while the
      peer of link m stays up. */
  ghost predicate ReturnsWithItIff(t: Topology, d: Cluster, p: PodName, m: nat, may: bool)
    requires Shape(t, d) && p in t && m < |t[p]|
  {
    forall fs, life, es :: NoDelOf(t, d, fs, p, t[p][m].peer) && ComesBack(t, Exec(t, d, fs), p, t[p][m].peer, life, es) ==>
      HasItIff(t, Step(t, Exec(t, d, fs), BeginAdd(p, life)), es, p, m, may)
  }

  lemma OneReturn(t: Topology, d: Cluster, p: PodName, m: nat, fs: seq<Event>, life: Life, es: seq<Event>)
    requires Reachable(t, d) && p in t && m < |t[p]|
    requires NoDelOf(t, d, fs, p, t[p][m].peer) && ComesBack(t, Exec(t, d, fs), p, t[p][m].peer, life, es)
    ensures HasItIff(t, Step(t, Exec(t, d, fs), BeginAdd(p, life)), es, p, m, MayInitiate(t, d, p, m))
  {
    hide MayInitiate, MadeIt, FoundIn, WellFormed, EffectOf;
    ReachableInv(t, d);
    PermissionStays(t, d, fs, p, m);
    ReachableExec(t, d, fs);
    LaterAddMakesIff(t, Exec(t, d, fs), p, life, es, m);
  }

  lemma WhenItComesBack(t: Topology, d: Cluster, p: PodName, m: nat)
    requires Reachable(t, d) && p in t && m < |t[p]|
    ensures ReturnsWithItIff(t, d, p, m, MayInitiate(t, d, p, m))
  {
    hide MayInitiate, HasItIff, ComesBack, EffectOf, Follows;
    forall fs, life, es | NoDelOf(t, d, fs, p, t[p][m].peer) && ComesBack(t, Exec(t, d, fs), p, t[p][m].peer, life, es)
      ensures HasItIff(t, Step(t, Exec(t, d, fs), BeginAdd(p, life)), es, p, m, MayInitiate(t, d, p, m))
    {
      OneReturn(t, d, p, m, fs, life, es);
    }
  }

  /** The link m of a pod whose DEL stopped at link k, to a peer that is up. Whenever the
      pod comes back while the peer stays up, it has the link again if and only if the
      DEL had announced it, or the peer lists it from before, or the pod has the greater
      name, or the pod finds an interface or a wire that the DEL left. */
  lemma AbortedDelLosesLink(t: Topology, c: Cluster, p: PodName, k: nat, m: nat) returns (d: Cluster)
    requires Reachable(t, c) && p in t && k < |t[p]| && c.procs[p].phase == Up && c.store[p].status.containerId != ""
    requires m < |t[p]| && c.procs[t[p][m].peer].phase == Up
    ensures Reachable(t, d) && d.procs[p].phase == Down && d.procs[p].stopped == Some(k) && d.procs[t[p][m].peer].phase == Up
    ensures forall id :: Step(t, d, BeginDel(p, id)) == d
    ensures ReturnsWithItIff(t, d, p, m, m < k || SkippedBy(c, t[p][m].peer, p, t[p][m].uid) || Greater(p, t[p][m].peer))
  {
    hide ReturnsWithItIff;
    ReachableInv(t, c);
    UpIsAlive(t, c, t[p][m].peer);
    d := DelStopsAnywhere(t, c, p, k);
    assert LivesOn(c, d, t[p][m].peer) && ToldLink(t, c, d, p, k, m);
    WhenItComesBack(t, d, p, m);
  }

  /** A run to the end: the DEL of the lower pod of a pair fails at its only link, the
      pod comes back on another node, waits, and gives up. */
  lemma PairLosesLink(t: Topology, hi: PodName, lo: PodName, u: int, l: Life, m: Life) returns (c: Cluster)
    requires Pair(t, hi, lo, u) && Proper(l) && Proper(m) && l.srcIp != m.srcIp
    ensures Reachable(t, c) && c.procs[hi].phase == Up && c.procs[lo].phase == Up
    ensures c.procs[hi].outcomes == map[0 := Initiated] && c.procs[lo].outcomes == map[0 := GaveUp]
  {
    c := HigherJoins(t, hi, lo, u, l, m);
    c := LowerIsAborted(t, c, hi, lo, u);
    c := Publish(t, c, lo, l);
    c := LookUp(t, c, lo, 0);
    c := DecideNew(t, c, lo);
    c := KeepPolling(t, c, lo, RETRY_COUNT);
  }

  /** On one node the same pod, not announced and of the lower name, makes the link: it
      finds the interface that its peer still has, removes it, and makes both anew. */
  lemma PairRepairsLink(t: Topology, hi: PodName, lo: PodName, u: int, l: Life, m: Life) returns (c: Cluster)
    requires Pair(t, hi, lo, u) && Proper(l) && Proper(m) && l.srcIp == m.srcIp
    ensures Reachable(t, c) && c.procs[hi].phase == Up && c.procs[lo].phase == Up && !SkippedBy(c, hi, lo, u)
    ensures c.procs[hi].outcomes == map[0 := Initiated] && c.procs[lo].outcomes == map[0 := Repaired]
  {
    c := HigherJoins(t, hi, lo, u, l, m);
    c := LowerIsAborted(t, c, hi, lo, u);
    c := Publish(t, c, lo, l);
    c := LookUp(t, c, lo, 0);
    c := DecideRemnant(t, c, lo);
  }

  /** Deciding on a shared node with only the peer's interface in place. */
  lemma DecideRemnant(t: Topology, c: Cluster, p: PodName) returns (d: Cluster)
    requires Reachable(t, c) && p in t && c.procs[p].phase == Deciding(0, true) && |t[p]| == 1 && EverMade(t, c, p, 0)
    ensures Reachable(t, d) && d.store == c.store
    ensures d.procs == c.procs[p := c.procs[p].(phase := Up, outcomes := c.procs[p].outcomes[0 := Repaired],
                                                built := c.procs[p].built + {t[p][0]})]
  {
    d := Step(t, c, Decide(p, false, true));
    Extend(t, c, Decide(p, false, true));
  }

  lemma LowerIsAborted(t: Topology, c: Cluster, hi: PodName, lo: PodName, u: int) returns (d: Cluster)
    requires Pair(t, hi, lo, u) && Reachable(t, c) && c.procs[lo].phase == Up && c.store[lo].status.containerId != ""
    ensures Reachable(t, d) && d.procs[lo].phase == Down && d.procs[hi] == c.procs[hi]
    ensures d.store[hi].status.(skipped := []) == c.store[hi].status.(skipped := [])
    ensures SkippedBy(d, hi, lo, u) <==> SkippedBy(c, hi, lo, u)
  {
    d := DelStopsAnywhere(t, c, lo, 0);
    assert LivesOn(c, d, hi) && ToldLink(t, c, d, lo, 0, 0);
  }

  lemma HigherJoins(t: Topology, hi: PodName, lo: PodName, u: int, l: Life, m: Life) returns (c: Cluster)
    requires Pair(t, hi, lo, u) && Proper(l) && Proper(m)
    ensures Reachable(t, c) && c.procs[hi].phase == Up && c.procs[lo].phase == Up
    ensures c.procs[hi].outcomes == map[0 := Initiated] && t[hi][0] in c.procs[hi].built && c.store[lo].status.containerId != ""
    ensures c.store[hi].status == Status(m.srcIp, m.netNs, m.containerId, [])
  {
    InitIsReachable(t);
    c := Publish(t, Init(t), lo, l);
    c := LookUp(t, c, lo, 0);
    c := CommitSkip(t, c, lo, 0);
    c := Publish(t, c, hi, m);
    c := LookUp(t, c, hi, 0);
    c := DecideNew(t, c, hi);
  }
}
