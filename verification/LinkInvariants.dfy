/** What every step of the link-initiation protocol keeps, in every interleaving
    of ADDs and DELs with any number of restarts and failures. */
module LinkInvariants {
  import opened Options
  import opened PodNames
  import opened TopologyStore
  import opened LinkProtocol

  /** A staged update was computed from an object the store really held: if the
      version has not moved, the object has not changed. */
  ghost predicate ReadIsHonest(t: Topology, c: Cluster, p: PodName)
    requires Shape(t, c) && p in t
  {
    var pr := c.procs[p];
    pr.read.Some? ==>
      && Writing(pr.phase)
      && var o := c.store[Target(t, p, pr.phase)];
      && pr.read.value.version <= o.version
      && (pr.read.value.version == o.version ==> pr.read.value == o)
      && (pr.phase.Informing? ==> Alive(pr.read.value.status))
  }

  predicate DeadPhase(ph: Phase) {
    ph == Down || ph.Publishing? || ph.Informing? || ph.Forgetting?
  }

  /** A pod is published exactly from the commit of its ADD's SetAlive to the
      commit of its DEL's SetAlive. */
  ghost predicate LifeMatchesPhase(t: Topology, c: Cluster, p: PodName)
    requires Shape(t, c) && p in t
  {
    var s := c.store[p].status;
    && (Alive(s) <==> !DeadPhase(c.procs[p].phase))
    && (!Alive(s) ==> s.containerId == "")
    && (c.procs[p].phase.Publishing? ==> Proper(c.procs[p].phase.life))
    && (c.procs[p].stopped.Some? ==> c.procs[p].phase == Down || c.procs[p].phase.Publishing?)
  }

  /** Skip lists hold nothing but links of their pod. */
  ghost predicate EntriesAreLinks(t: Topology, c: Cluster, p: PodName)
    requires Shape(t, c) && p in t
  {
    forall e :: e in c.store[p].status.skipped ==> Link(e.podName, e.linkId) in t[p]
  }

  /** While a pod is being deleted its list has lost the peers already handled, also
      if the DEL stops; a pod that is down after a complete DEL has an empty list. */
  ghost predicate ListDrains(t: Topology, c: Cluster, p: PodName)
    requires Shape(t, c) && p in t
  {
    forall e :: e in c.store[p].status.skipped ==> NotDrained(t[p], c.procs[p], e)
  }

  ghost predicate NotDrained(links: seq<Link>, pr: Proc, e: Skipped) {
    match pr.phase
    case Down => pr.stopped.Some? && forall j :: 0 <= j && j + 1 < pr.stopped.value && j < |links| ==> links[j].peer != e.podName
    case Publishing(_) => pr.stopped.Some? && forall j :: 0 <= j && j + 1 < pr.stopped.value && j < |links| ==> links[j].peer != e.podName
    case Informing(i) => forall j :: 0 <= j < i && j < |links| ==> links[j].peer != e.podName
    case Forgetting(i) => forall j :: 0 <= j < i && j < |links| ==> links[j].peer != e.podName
    case _ => true
  }

  /** In its ADD the pod is done with the liveness check of link j. */
  predicate Past(ph: Phase, j: nat) {
    match ph
    case Walking(i) => j < i
    case Skipping(i) => j < i
    case Deciding(i, _) => j <= i
    case Polling(i, _) => j <= i
    case Up => true
    case _ => false
  }

  /** Pod a is being deleted and has not yet told b about link u. */
  ghost predicate WillInform(t: Topology, c: Cluster, a: PodName, b: PodName, u: int)
    requires Shape(t, c) && a in t
  {
    match c.procs[a].phase
    case Informing(k) => exists m :: k <= m < |t[a]| && t[a][m] == Link(b, u)
    case Forgetting(k) => exists m :: k < m < |t[a]| && t[a][m] == Link(b, u)
    case _ => false
  }

  /** The last DEL of a stopped before it told b about link u. */
  ghost predicate Untold(t: Topology, c: Cluster, a: PodName, b: PodName, u: int)
    requires Shape(t, c) && a in t
  {
    c.procs[a].stopped.Some? && exists m :: c.procs[a].stopped.value <= m < |t[a]| && t[a][m] == Link(b, u)
  }

  ghost predicate Covered(t: Topology, c: Cluster, b: PodName, a: PodName, u: int)
    requires Shape(t, c) && a in t && b in t
  {
    || Alive(c.store[a].status)
    || SkippedBy(c, b, a, u)
    || WillInform(t, c, a, b, u)
    || Untold(t, c, a, b, u)
  }

  /** For every link whose peer this pod has looked up: the peer is alive, is
      listed as skipped, is still going to list itself, or will not any more. */
  ghost predicate PeersCovered(t: Topology, c: Cluster, b: PodName)
    requires Shape(t, c) && b in t
  {
    forall j :: 0 <= j < |t[b]| && Past(c.procs[b].phase, j) ==> Covered(t, c, b, t[b][j].peer, t[b][j].uid)
  }

  /** What holds of each pod by itself. */
  ghost predicate PodInv(t: Topology, c: Cluster, p: PodName)
    requires Shape(t, c) && p in t
  {
    ReadIsHonest(t, c, p) && LifeMatchesPhase(t, c, p) && EntriesAreLinks(t, c, p) && ListDrains(t, c, p)
  }

  ghost predicate Inv(t: Topology, c: Cluster) {
    && Shape(t, c)
    && (forall p :: p in t ==> PodInv(t, c, p))
    && (forall p :: p in t ==> PeersCovered(t, c, p))
  }

  lemma InitInv(t: Topology)
    requires WellFormed(t)
    ensures Inv(t, Init(t))
  {
  }

  // ------------------------------------------------- the two kinds of steps

  function WithProc(c: Cluster, p: PodName, pr: Proc): Cluster {
    c.(procs := c.procs[p := pr])
  }

  /** All that matters about a step that writes no object: pr is the acting pod's
      state after it. */
  ghost predicate Quiet(t: Topology, c: Cluster, p: PodName, pr: Proc)
    requires Shape(t, c) && p in t
  {
    var was := c.procs[p];
    && InRange(pr.phase, |t[p]|)
    && (DeadPhase(pr.phase) <==> DeadPhase(was.phase))
    && (pr.phase.Publishing? ==> Proper(pr.phase.life))
    && (was.stopped.Some? ==> pr.stopped == was.stopped)
    && (pr.stopped.Some? ==> pr.phase == Down || pr.phase.Publishing?)
    && QuietRead(t, c, p, pr)
    && QuietDrain(was, pr)
    && QuietLook(t, c, p, pr)
  }

  ghost predicate QuietRead(t: Topology, c: Cluster, p: PodName, pr: Proc)
    requires Shape(t, c) && p in t
  {
    var was := c.procs[p];
    pr.read.Some? ==>
      && pr.phase == was.phase && Writing(was.phase)
      && (pr.read == was.read ||
          var o := c.store[Target(t, p, was.phase)];
          pr.read.value == o && (was.phase.Informing? ==> Alive(o.status)))
  }

  /** A DEL fails; it knows how many links it has announced. */
  predicate StoppedAt(was: Proc, pr: Proc) {
    pr.phase == Down && match was.phase
    case Informing(i) => pr.stopped == Some(i)
    case Forgetting(i) => pr.stopped == Some(i + 1)
    case _ => false
  }

  predicate QuietDrain(was: Proc, pr: Proc) {
    match pr.phase
    case Down => StoppedAt(was, pr) || ((was.phase == Down || was.phase.Publishing?) && pr.stopped == was.stopped)
    case Publishing(_) => (was.phase == Down || was.phase.Publishing?) && pr.stopped == was.stopped
    case Informing(i) => was.phase == pr.phase
    case Forgetting(i) => was.phase == pr.phase || was.phase == Informing(i)
    case _ => true
  }

  ghost predicate QuietLook(t: Topology, c: Cluster, p: PodName, pr: Proc)
    requires Shape(t, c) && p in t
  {
    var was := c.procs[p];
    && (forall j :: 0 <= j < |t[p]| && Past(pr.phase, j) ==> Past(was.phase, j) || Alive(c.store[t[p][j].peer].status))
    && (was.phase.Informing? ==>
          || pr.phase == was.phase
          || StoppedAt(was, pr)
          || (pr.phase == Forgetting(was.phase.at) && !Alive(c.store[t[p][was.phase.at].peer].status)))
    && (was.phase.Forgetting? ==> pr.phase == was.phase || StoppedAt(was, pr))
  }

  /** The cluster after the acting pod's pending write was accepted. */
  function Committed(t: Topology, c: Cluster, p: PodName): Cluster
    requires Shape(t, c) && p in t && Writing(c.procs[p].phase)
  {
    var pr := c.procs[p];
    var n := Target(t, p, pr.phase);
    var w := Pending(t, p, pr.phase);
    Cluster(c.store[n := Object(c.store[n].version + 1, Apply(w, c.store[n].status))],
            c.procs[p := pr.(phase := Continue(t, p, pr.phase), read := None, stopped := if pr.phase.Publishing? then None else pr.stopped)],
            c.log + [Commit(n, w)])
  }

  ghost predicate Committing(t: Topology, c: Cluster, p: PodName)
    requires Shape(t, c) && p in t
  {
    && Writing(c.procs[p].phase)
    && (c.procs[p].phase.Informing? ==> Alive(c.store[Target(t, p, c.procs[p].phase)].status))
  }

  /** The version check makes the write apply to the object as it is now. */
  lemma UpdateIsCommit(t: Topology, c: Cluster, p: PodName)
    requires Shape(t, c) && p in t && PodInv(t, c, p)
    ensures var f := EffectOf(t, c, TryUpdate(p));
      || (f.written.None? && Quiet(t, c, p, f.proc))
      || (Committing(t, c, p) && Step(t, c, TryUpdate(p)) == Committed(t, c, p))
  {
  }

  lemma LookUpIsQuiet(t: Topology, c: Cluster, p: PodName)
    requires Shape(t, c) && p in t && PodInv(t, c, p)
    ensures var f := EffectOf(t, c, LookUpPeer(p)); f.written.None? && Quiet(t, c, p, f.proc)
  {
  }

  lemma DecideAndPollAreQuiet(t: Topology, c: Cluster, e: Event)
    requires Shape(t, c) && e.pod in t && PodInv(t, c, e.pod)
    requires e.Decide? || e.Poll?
    ensures var f := EffectOf(t, c, e); f.written.None? && Quiet(t, c, e.pod, f.proc)
  {
  }

  lemma FetchIsQuiet(t: Topology, c: Cluster, p: PodName)
    requires Shape(t, c) && p in t && PodInv(t, c, p)
    ensures var f := EffectOf(t, c, Fetch(p)); f.written.None? && Quiet(t, c, p, f.proc)
  {
  }

  lemma BeginAndFailAreQuiet(t: Topology, c: Cluster, e: Event)
    requires Shape(t, c) && e.pod in t && PodInv(t, c, e.pod)
    requires e.BeginAdd? || e.FailAdd? || e.BeginDel? || e.FailDel?
    ensures var f := EffectOf(t, c, e); f.written.None? && Quiet(t, c, e.pod, f.proc)
  {
  }

  // ----------------------------------------------------------- quiet steps

  lemma QuietKeepsPod(t: Topology, c: Cluster, p: PodName, pr: Proc, q: PodName)
    requires Shape(t, c) && p in t && q in t && Quiet(t, c, p, pr) && PodInv(t, c, q)
    ensures Shape(t, WithProc(c, p, pr)) && PodInv(t, WithProc(c, p, pr), q)
  {
    if p == q {
      QuietKeepsLife(t, c, p, pr);
      QuietKeepsOwnDrain(t, c, p, pr);
    }
  }

  lemma QuietKeepsLife(t: Topology, c: Cluster, p: PodName, pr: Proc)
    requires Shape(t, c) && p in t && Quiet(t, c, p, pr) && PodInv(t, c, p)
    ensures Shape(t, WithProc(c, p, pr)) && ReadIsHonest(t, WithProc(c, p, pr), p) && LifeMatchesPhase(t, WithProc(c, p, pr), p)
  {
  }

  lemma QuietKeepsOwnDrain(t: Topology, c: Cluster, p: PodName, pr: Proc)
    requires Shape(t, c) && p in t && Quiet(t, c, p, pr) && PodInv(t, c, p)
    ensures Shape(t, WithProc(c, p, pr)) && EntriesAreLinks(t, WithProc(c, p, pr), p) && ListDrains(t, WithProc(c, p, pr), p)
  {
  }

  lemma QuietKeepsCover(t: Topology, c: Cluster, p: PodName, pr: Proc, b: PodName, a: PodName, u: int)
    requires Shape(t, c) && p in t && a in t && b in t && Quiet(t, c, p, pr)
    requires Alive(c.store[b].status) && Covered(t, c, b, a, u)
    ensures Shape(t, WithProc(c, p, pr)) && Covered(t, WithProc(c, p, pr), b, a, u)
  {
    var d := WithProc(c, p, pr);
    if WillInform(t, c, a, b, u) && p == a && pr.phase != c.procs[a].phase {
      var k := c.procs[a].phase.at;
      var m :| k <= m < |t[a]| && t[a][m] == Link(b, u) && (c.procs[a].phase.Forgetting? ==> k < m);
      if !StoppedAt(c.procs[a], pr) { assert m != k; }
    }
  }

  lemma QuietKeepsPeers(t: Topology, c: Cluster, p: PodName, pr: Proc, b: PodName)
    requires Shape(t, c) && p in t && b in t && Quiet(t, c, p, pr)
    requires LifeMatchesPhase(t, c, b) && PeersCovered(t, c, b)
    ensures Shape(t, WithProc(c, p, pr)) && PeersCovered(t, WithProc(c, p, pr), b)
  {
    var d := WithProc(c, p, pr);
    forall j | 0 <= j < |t[b]| && Past(d.procs[b].phase, j)
      ensures Covered(t, d, b, t[b][j].peer, t[b][j].uid)
    {
      if Past(c.procs[b].phase, j) {
        QuietKeepsCover(t, c, p, pr, b, t[b][j].peer, t[b][j].uid);
      }
    }
  }

  lemma QuietKeepsInv(t: Topology, c: Cluster, p: PodName, pr: Proc)
    requires Inv(t, c) && p in t && Quiet(t, c, p, pr)
    ensures Inv(t, WithProc(c, p, pr))
  {
    var d := WithProc(c, p, pr);
    QuietKeepsPod(t, c, p, pr, p);
    forall q | q in t ensures PodInv(t, d, q) { QuietKeepsPod(t, c, p, pr, q); }
    forall q | q in t ensures PeersCovered(t, d, q) { QuietKeepsPeers(t, c, p, pr, q); }
  }

  // --------------------------------------------------------------- commits

  lemma CommitKeepsShape(t: Topology, c: Cluster, p: PodName)
    requires Shape(t, c) && p in t && Committing(t, c, p)
    ensures Shape(t, Committed(t, c, p))
  {
  }

  lemma CommitKeepsReads(t: Topology, c: Cluster, p: PodName, q: PodName)
    requires Shape(t, c) && p in t && q in t && Committing(t, c, p) && ReadIsHonest(t, c, q)
    ensures Shape(t, Committed(t, c, p)) && ReadIsHonest(t, Committed(t, c, p), q)
  {
    CommitKeepsShape(t, c, p);
  }

  lemma CommitKeepsLife(t: Topology, c: Cluster, p: PodName, q: PodName)
    requires Shape(t, c) && p in t && q in t && Committing(t, c, p)
    requires LifeMatchesPhase(t, c, p) && LifeMatchesPhase(t, c, q)
    ensures Shape(t, Committed(t, c, p)) && LifeMatchesPhase(t, Committed(t, c, p), q)
  {
    CommitKeepsShape(t, c, p);
  }

  lemma CommitKeepsEntries(t: Topology, c: Cluster, p: PodName, q: PodName)
    requires Shape(t, c) && p in t && q in t && Committing(t, c, p) && EntriesAreLinks(t, c, q)
    ensures Shape(t, Committed(t, c, p)) && EntriesAreLinks(t, Committed(t, c, p), q)
  {
    CommitKeepsShape(t, c, p);
    if c.procs[p].phase.Informing? {
      assert Mirrored(t, p, c.procs[p].phase.at);
    }
  }

  /** The per-link filters of a DEL add up: once every link has been handled, no
      entry that belongs to one of them is left. */
  lemma AfterForgetDrains(t: Topology, p: PodName, i: nat, pr: Proc, e: Skipped)
    requires p in t && i <= |t[p]| && Link(e.podName, e.linkId) in t[p]
    requires forall j :: 0 <= j < i ==> t[p][j].peer != e.podName
    requires pr.phase == AfterForget(t, p, i)
    ensures NotDrained(t[p], pr, e)
  {
    var m :| 0 <= m < |t[p]| && t[p][m] == Link(e.podName, e.linkId);
    assert i <= m;
  }

  lemma CommitKeepsOwnDraining(t: Topology, c: Cluster, p: PodName, e: Skipped)
    requires Shape(t, c) && p in t && Committing(t, c, p)
    requires EntriesAreLinks(t, c, p) && ListDrains(t, c, p)
    requires e in Committed(t, c, p).store[p].status.skipped
    ensures NotDrained(t[p], Committed(t, c, p).procs[p], e)
  {
    var ph := c.procs[p].phase;
    var pr := Committed(t, c, p).procs[p];
    match ph
    case Retiring => AfterForgetDrains(t, p, 0, pr, e);
    case Forgetting(i) =>
      assert Survives(e, t[p][i].peer, t[p][i].uid) && NotDrained(t[p], c.procs[p], e);
      AfterForgetDrains(t, p, i + 1, pr, e);
    case _ =>
  }

  /** Nobody can add to the list of a pod that is being deleted. */
  lemma CommitKeepsDraining(t: Topology, c: Cluster, p: PodName, q: PodName)
    requires Shape(t, c) && p in t && q in t && Committing(t, c, p)
    requires LifeMatchesPhase(t, c, q) && EntriesAreLinks(t, c, q) && ListDrains(t, c, q)
    ensures Shape(t, Committed(t, c, p)) && ListDrains(t, Committed(t, c, p), q)
  {
    CommitKeepsShape(t, c, p);
    forall e | e in Committed(t, c, p).store[q].status.skipped
      ensures NotDrained(t[q], Committed(t, c, p).procs[q], e)
    {
      if p == q {
        CommitKeepsOwnDraining(t, c, p, e);
      }
    }
  }

  lemma CommitKeepsOthersCover(t: Topology, c: Cluster, p: PodName, b: PodName, a: PodName, u: int)
    requires Shape(t, c) && p in t && a in t && b in t && Committing(t, c, p)
    requires a != p && Alive(c.store[b].status) && LifeMatchesPhase(t, c, b) && Covered(t, c, b, a, u)
    ensures Shape(t, Committed(t, c, p)) && Covered(t, Committed(t, c, p), b, a, u)
  {
    CommitKeepsShape(t, c, p);
  }

  /** A pod that goes down still has every one of its links ahead of it. */
  lemma RetiringCovers(t: Topology, c: Cluster, a: PodName, b: PodName, u: int)
    requires Shape(t, c) && a in t && b in t && c.procs[a].phase == Retiring && Link(b, u) in t[a]
    ensures Shape(t, Committed(t, c, a)) && WillInform(t, Committed(t, c, a), a, b, u)
  {
    CommitKeepsShape(t, c, a);
    var m :| 0 <= m < |t[a]| && t[a][m] == Link(b, u);
  }

  /** Once it has told b about a link, b lists it. */
  lemma InformingCovers(t: Topology, c: Cluster, a: PodName, b: PodName, u: int)
    requires Shape(t, c) && a in t && b in t && c.procs[a].phase.Informing? && Committing(t, c, a)
    requires SkippedBy(c, b, a, u) || WillInform(t, c, a, b, u)
    ensures Shape(t, Committed(t, c, a))
    ensures SkippedBy(Committed(t, c, a), b, a, u) || WillInform(t, Committed(t, c, a), a, b, u)
  {
    CommitKeepsShape(t, c, a);
    if !SkippedBy(c, b, a, u) {
      var k := c.procs[a].phase.at;
      var m :| k <= m < |t[a]| && t[a][m] == Link(b, u);
      if m == k {
        assert SkippedBy(Committed(t, c, a), b, a, u);
      }
    }
  }

  lemma ForgettingCovers(t: Topology, c: Cluster, a: PodName, b: PodName, u: int)
    requires Shape(t, c) && a in t && b in t && a != b && c.procs[a].phase.Forgetting?
    requires SkippedBy(c, b, a, u) || WillInform(t, c, a, b, u)
    ensures Shape(t, Committed(t, c, a))
    ensures SkippedBy(Committed(t, c, a), b, a, u) || WillInform(t, Committed(t, c, a), a, b, u)
  {
    CommitKeepsShape(t, c, a);
    if !SkippedBy(c, b, a, u) {
      var k := c.procs[a].phase.at;
      var m :| k < m < |t[a]| && t[a][m] == Link(b, u);
    }
  }

  lemma CommitKeepsOwnCover(t: Topology, c: Cluster, a: PodName, b: PodName, u: int)
    requires Shape(t, c) && a in t && b in t && a != b && Committing(t, c, a)
    requires LifeMatchesPhase(t, c, a) && Covered(t, c, b, a, u) && Link(b, u) in t[a]
    ensures Shape(t, Committed(t, c, a)) && Covered(t, Committed(t, c, a), b, a, u)
  {
    var ph := c.procs[a].phase;
    if ph == Retiring {
      RetiringCovers(t, c, a, b, u);
    } else if ph.Publishing? || ph.Skipping? {
      CommitKeepsLife(t, c, a, a);
      assert !DeadPhase(Continue(t, a, ph));
    } else if ph.Informing? {
      InformingCovers(t, c, a, b, u);
    } else {
      ForgettingCovers(t, c, a, b, u);
    }
  }

  /** A link that b has just skipped is in b's list. */
  lemma SkippingCovers(t: Topology, c: Cluster, b: PodName, j: nat)
    requires Shape(t, c) && b in t && c.procs[b].phase == Skipping(j) && j < |t[b]|
    ensures Shape(t, Committed(t, c, b)) && SkippedBy(Committed(t, c, b), b, t[b][j].peer, t[b][j].uid)
  {
    CommitKeepsShape(t, c, b);
  }

  lemma NewlyPast(t: Topology, c: Cluster, p: PodName, b: PodName, j: nat)
    requires Shape(t, c) && p in t && b in t && j < |t[b]| && Committing(t, c, p)
    requires Past(Committed(t, c, p).procs[b].phase, j) && !Past(c.procs[b].phase, j)
    ensures b == p && c.procs[b].phase == Skipping(j)
  {
  }

  lemma CommitKeepsCover(t: Topology, c: Cluster, p: PodName, b: PodName, j: nat)
    requires Inv(t, c) && p in t && b in t && j < |t[b]| && Committing(t, c, p)
    requires Past(c.procs[b].phase, j)
    ensures Shape(t, Committed(t, c, p)) && Covered(t, Committed(t, c, p), b, t[b][j].peer, t[b][j].uid)
  {
    var a, u := t[b][j].peer, t[b][j].uid;
    assert PodInv(t, c, b) && PodInv(t, c, a) && PeersCovered(t, c, b);
    if a == p {
      assert Mirrored(t, b, j);
      CommitKeepsOwnCover(t, c, a, b, u);
    } else {
      CommitKeepsOthersCover(t, c, p, b, a, u);
    }
  }

  lemma CommitKeepsPeers(t: Topology, c: Cluster, p: PodName, b: PodName)
    requires Inv(t, c) && p in t && b in t && Committing(t, c, p)
    ensures Shape(t, Committed(t, c, p)) && PeersCovered(t, Committed(t, c, p), b)
  {
    CommitKeepsShape(t, c, p);
    var d := Committed(t, c, p);
    forall j | 0 <= j < |t[b]| && Past(d.procs[b].phase, j)
      ensures Covered(t, d, b, t[b][j].peer, t[b][j].uid)
    {
      if Past(c.procs[b].phase, j) {
        CommitKeepsCover(t, c, p, b, j);
      } else {
        NewlyPast(t, c, p, b, j);
        SkippingCovers(t, c, b, j);
      }
    }
  }

  lemma CommitKeepsInv(t: Topology, c: Cluster, p: PodName)
    requires Inv(t, c) && p in t && Committing(t, c, p)
    ensures Inv(t, Committed(t, c, p))
  {
    var d := Committed(t, c, p);
    CommitKeepsShape(t, c, p);
    forall q | q in t ensures PodInv(t, d, q) {
      assert PodInv(t, c, p) && PodInv(t, c, q);
      CommitKeepsReads(t, c, p, q);
      CommitKeepsLife(t, c, p, q);
      CommitKeepsEntries(t, c, p, q);
      CommitKeepsDraining(t, c, p, q);
    }
    forall q | q in t ensures PeersCovered(t, d, q) { CommitKeepsPeers(t, c, p, q); }
  }

  // ------------------------------------------------------------------ runs

  lemma StepKeepsInv(t: Topology, c: Cluster, e: Event)
    requires Inv(t, c)
    ensures Inv(t, Step(t, c, e))
  {
    if e.pod in t {
      var p := e.pod;
      assert PodInv(t, c, p);
      var d := Step(t, c, e);
      match e {
        case TryUpdate(_) => UpdateIsCommit(t, c, p);
        case Fetch(_) => FetchIsQuiet(t, c, p);
        case LookUpPeer(_) => LookUpIsQuiet(t, c, p);
        case Decide(_, _, _) => DecideAndPollAreQuiet(t, c, e);
        case Poll(_, _, _) => DecideAndPollAreQuiet(t, c, e);
        case _ => BeginAndFailAreQuiet(t, c, e);
      }
      if Committing(t, c, p) && d == Committed(t, c, p) {
        CommitKeepsInv(t, c, p);
      } else {
        QuietKeepsInv(t, c, p, EffectOf(t, c, e).proc);
      }
    }
  }

  lemma {:induction false} ExecKeepsInv(t: Topology, c: Cluster, es: seq<Event>)
    requires Inv(t, c)
    ensures Inv(t, Exec(t, c, es))
  {
    if es != [] {
      ExecKeepsInv(t, c, es[..|es| - 1]);
      StepKeepsInv(t, Exec(t, c, es[..|es| - 1]), es[|es| - 1]);
    }
  }

  lemma ReachableInv(t: Topology, c: Cluster)
    requires Reachable(t, c)
    ensures Inv(t, c)
  {
    var es := ReachableByRun(t, c);
    InitInv(t);
    ExecKeepsInv(t, Init(t), es);
  }
}
