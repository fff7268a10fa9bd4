/** Where the entries of a skip list come from. */
module LinkOrigins {
  import opened Options
  import opened PodNames
  import opened TopologyStore
  import opened LinkProtocol
  import opened LinkInvariants
  import opened LinkOutcomes
  import opened StoreHistory

  /** The pod has published itself and its ADD has not failed. */
  predicate OnAir(ph: Phase) {
    Started(ph) && !ph.Publishing?
  }

  predicate Publishes(w: Write) {
    w.SetLife? && w.srcIp != ""
  }

  /** What DELs of other pods have announced to b since b was last published. */
  function Told(log: seq<Commit>, b: PodName): set<Skipped> {
    if log == [] then {}
    else
      var before, last := Told(log[..|log| - 1], b), log[|log| - 1];
      if last.name != b then before
      else if Publishes(last.write) then {}
      else if last.write.AddIfAbsent? then before + {last.write.entry}
      else before
  }

  /** What b's list held when b was last published. */
  function Inherited(log: seq<Commit>, b: PodName): seq<Skipped> {
    if log == [] then []
    else
      var front, last := log[..|log| - 1], log[|log| - 1];
      if last.name == b && Publishes(last.write) then ApplyAll(WritesTo(front, b), BLANK).skipped else Inherited(front, b)
  }

  /** In its current ADD the pod found the peer of link j dead, and said so. */
  predicate RecordedDead(pr: Proc, j: nat) {
    j in pr.outcomes && pr.outcomes[j] == PeerDead && pr.phase != Skipping(j)
  }

  ghost predicate FoundDead(t: Topology, c: Cluster, b: PodName, e: Skipped)
    requires Shape(t, c) && b in t
  {
    exists j :: 0 <= j < |t[b]| && t[b][j] == Link(e.podName, e.linkId) && RecordedDead(c.procs[b], j)
  }

  ghost predicate HasOrigin(t: Topology, c: Cluster, b: PodName, e: Skipped)
    requires Shape(t, c) && b in t
  {
    FoundDead(t, c, b, e) || e in Told(c.log, b) || e in Inherited(c.log, b)
  }

  ghost predicate OriginOf(t: Topology, c: Cluster, b: PodName, e: Skipped)
    requires Shape(t, c) && b in t
  {
    OnAir(c.procs[b].phase) ==> (e in c.store[b].status.skipped <==> HasOrigin(t, c, b, e))
  }

  ghost predicate OriginInv(t: Topology, c: Cluster) {
    && OutcomeInv(t, c) && Replayed(t, c)
    && forall b, e :: b in t ==> OriginOf(t, c, b, e)
  }

  // -------------------------------------------------------------- the log

  lemma LogAdds(log: seq<Commit>, x: Commit, b: PodName)
    ensures Told(log + [x], b) ==
      if x.name != b then Told(log, b) else if Publishes(x.write) then {}
      else if x.write.AddIfAbsent? then Told(log, b) + {x.write.entry} else Told(log, b)
    ensures Inherited(log + [x], b) ==
      if x.name == b && Publishes(x.write) then ApplyAll(WritesTo(log, b), BLANK).skipped else Inherited(log, b)
  {
    assert (log + [x])[..|log|] == log;
  }

  // ------------------------------------------------------------ quiet steps

  /** A step that writes nothing settles links, but no dead peer becomes a recorded
      one by it. */
  lemma QuietFindsNobody(t: Topology, c: Cluster, e: Event, j: nat)
    requires Shape(t, c) && e.pod in t && OutcomesComplete(t, c, e.pod) && j < |t[e.pod]|
    requires EffectOf(t, c, e).written.None? && OnAir(Step(t, c, e).procs[e.pod].phase)
    ensures OnAir(c.procs[e.pod].phase)
    ensures RecordedDead(Step(t, c, e).procs[e.pod], j) <==> RecordedDead(c.procs[e.pod], j)
  {
    StepSettles(t, c, e);
    QuietKeepsSkipping(t, c, e);
  }

  lemma QuietKeepsSkipping(t: Topology, c: Cluster, e: Event)
    requires Shape(t, c) && e.pod in t && EffectOf(t, c, e).written.None? && OnAir(EffectOf(t, c, e).proc.phase)
    ensures c.procs[e.pod].phase.Skipping? ==> EffectOf(t, c, e).proc.phase == c.procs[e.pod].phase
    ensures OnAir(c.procs[e.pod].phase)
  {
  }

  lemma QuietKeepsOrigin(t: Topology, c: Cluster, e: Event, b: PodName, x: Skipped)
    requires Shape(t, c) && b in t && OutcomesComplete(t, c, b) && OriginOf(t, c, b, x)
    requires e.pod in t ==> EffectOf(t, c, e).written.None?
    ensures OriginOf(t, Step(t, c, e), b, x)
  {
    var d := Step(t, c, e);
    if e.pod == b && OnAir(d.procs[b].phase) {
      forall j | 0 <= j < |t[b]| ensures RecordedDead(d.procs[b], j) <==> RecordedDead(c.procs[b], j) { QuietFindsNobody(t, c, e, j); }
      QuietKeepsSkipping(t, c, e);
    }
  }

  // --------------------------------------------------------------- commits

  lemma PublishingInherits(t: Topology, c: Cluster, b: PodName, x: Skipped)
    requires Shape(t, c) && b in t && OutcomesComplete(t, c, b) && ReplayedAt(c, b) && LifeMatchesPhase(t, c, b)
    requires c.procs[b].phase.Publishing?
    ensures Shape(t, Committed(t, c, b)) && OriginOf(t, Committed(t, c, b), b, x)
  {
    CommitKeepsShape(t, c, b);
    LogAdds(c.log, Commit(b, Pending(t, b, c.procs[b].phase)), b);
  }

  lemma SkippingFinds(t: Topology, c: Cluster, b: PodName, x: Skipped)
    requires Shape(t, c) && b in t && OutcomesComplete(t, c, b) && OriginOf(t, c, b, x)
    requires c.procs[b].phase.Skipping?
    ensures Shape(t, Committed(t, c, b)) && OriginOf(t, Committed(t, c, b), b, x)
  {
    CommitKeepsShape(t, c, b);
    var d, i := Committed(t, c, b), c.procs[b].phase.at;
    LogAdds(c.log, Commit(b, Pending(t, b, c.procs[b].phase)), b);
    assert RecordedDead(d.procs[b], i);
    forall j | 0 <= j < |t[b]| ensures RecordedDead(d.procs[b], j) <==> RecordedDead(c.procs[b], j) || j == i {}
    if FoundDead(t, c, b, x) {
      var j :| 0 <= j < |t[b]| && t[b][j] == Link(x.podName, x.linkId) && RecordedDead(c.procs[b], j);
      assert RecordedDead(d.procs[b], j);
    }
  }

  lemma OthersCommitTells(t: Topology, c: Cluster, p: PodName, b: PodName, x: Skipped)
    requires Shape(t, c) && p in t && b in t && p != b && Committing(t, c, p) && OriginOf(t, c, b, x)
    ensures Shape(t, Committed(t, c, p)) && OriginOf(t, Committed(t, c, p), b, x)
  {
    CommitKeepsShape(t, c, p);
    LogAdds(c.log, Commit(Target(t, p, c.procs[p].phase), Pending(t, p, c.procs[p].phase)), b);
    assert FoundDead(t, Committed(t, c, p), b, x) <==> FoundDead(t, c, b, x);
  }

  lemma OwnCommitKeepsOrigin(t: Topology, c: Cluster, b: PodName, x: Skipped)
    requires Shape(t, c) && b in t && Committing(t, c, b)
    requires OutcomesComplete(t, c, b) && ReplayedAt(c, b) && LifeMatchesPhase(t, c, b) && OriginOf(t, c, b, x)
    ensures Shape(t, Committed(t, c, b)) && OriginOf(t, Committed(t, c, b), b, x)
  {
    if c.procs[b].phase.Publishing? {
      PublishingInherits(t, c, b, x);
    } else if c.procs[b].phase.Skipping? {
      SkippingFinds(t, c, b, x);
    } else {
      DeletingIsOffAir(t, c, b, x);
    }
  }

  lemma DeletingIsOffAir(t: Topology, c: Cluster, b: PodName, x: Skipped)
    requires Shape(t, c) && b in t && Deleting(c.procs[b].phase) && Committing(t, c, b)
    ensures Shape(t, Committed(t, c, b)) && OriginOf(t, Committed(t, c, b), b, x)
  {
    CommitKeepsShape(t, c, b);
  }

  lemma StepKeepsOrigin(t: Topology, c: Cluster, e: Event, b: PodName, x: Skipped)
    requires OriginInv(t, c) && b in t
    ensures OriginOf(t, Step(t, c, e), b, x)
  {
    assert OutcomesComplete(t, c, b) && OriginOf(t, c, b, x);
    if e.pod in t && EffectOf(t, c, e).written.Some? {
      assert PodInv(t, c, e.pod) && e.TryUpdate?;
      UpdateIsCommit(t, c, e.pod);
      assert PodInv(t, c, b) && ReplayedAt(c, b);
      if e.pod == b { OwnCommitKeepsOrigin(t, c, b, x); } else { OthersCommitTells(t, c, e.pod, b, x); }
    } else {
      QuietKeepsOrigin(t, c, e, b, x);
    }
  }

  lemma {:induction false} RunKeepsOrigins(t: Topology, es: seq<Event>)
    requires WellFormed(t)
    ensures OriginInv(t, Exec(t, Init(t), es))
  {
    NothingIsLost(t, es);
    if es == [] {
      InitOutcomeInv(t);
    } else {
      var front, e := es[..|es| - 1], es[|es| - 1];
      RunKeepsOrigins(t, front);
      var c := Exec(t, Init(t), front);
      StepKeepsOutcomeInv(t, c, e);
      forall b, x | b in t ensures OriginOf(t, Step(t, c, e), b, x) { StepKeepsOrigin(t, c, e, b, x); }
    }
  }

  /** In every reachable state the list of a pod that has published itself holds
      exactly the peers it found dead in this ADD, those whose DEL has announced
      itself since it was published, and what its list held then. */
  lemma EntriesHaveOrigins(t: Topology, c: Cluster, b: PodName, e: Skipped)
    requires Reachable(t, c) && b in t && OnAir(c.procs[b].phase)
    ensures e in c.store[b].status.skipped <==> HasOrigin(t, c, b, e)
  {
    ReachableOrigins(t, c);
    assert OriginOf(t, c, b, e);
  }

  lemma ReachableOrigins(t: Topology, c: Cluster)
    requires Reachable(t, c)
    ensures OriginInv(t, c)
  {
    var es := ReachableByRun(t, c);
    RunKeepsOrigins(t, es);
  }

  /** A peer found dead in the current ADD is in the list, once its Skip is committed. */
  lemma DeadIsListed(t: Topology, c: Cluster, p: PodName, i: nat)
    requires Reachable(t, c) && p in t && i < |t[p]| && OnAir(c.procs[p].phase) && RecordedDead(c.procs[p], i)
    ensures SkippedBy(c, p, t[p][i].peer, t[p][i].uid)
  {
    var e := Skipped(t[p][i].peer, t[p][i].uid);
    EntriesHaveOrigins(t, c, p, e);
    assert FoundDead(t, c, p, e);
  }

  // ------------------------------------------------------- down after a DEL

  /** The last DEL of a got past the link: it told b, or found b dead. */
  ghost predicate GotPast(t: Topology, c: Cluster, a: PodName, b: PodName, u: int)
    requires Shape(t, c) && a in t
  {
    !Untold(t, c, a, b, u)
  }

  /** When b is up and a is down, b lists their link if and only if the last DEL of a
      got past it, or b found a dead in its ADD, or an earlier DEL of a announced it
      while b was published, or b's list held it when b was published. */
  lemma DownPeerIsListedIff(t: Topology, c: Cluster, b: PodName, j: nat)
    requires Reachable(t, c) && b in t && j < |t[b]| && c.procs[b].phase == Up && c.procs[t[b][j].peer].phase == Down
    ensures var a, u := t[b][j].peer, t[b][j].uid;
      SkippedBy(c, b, a, u) <==>
      || GotPast(t, c, a, b, u)
      || RecordedDead(c.procs[b], j)
      || Skipped(a, u) in Told(c.log, b)
      || Skipped(a, u) in Inherited(c.log, b)
  {
    var a, u := t[b][j].peer, t[b][j].uid;
    EntriesHaveOrigins(t, c, b, Skipped(a, u));
    FoundDeadIsRecorded(t, c, b, j);
    if GotPast(t, c, a, b, u) { GotPastIsListed(t, c, b, j); }
  }

  lemma GotPastIsListed(t: Topology, c: Cluster, b: PodName, j: nat)
    requires Reachable(t, c) && b in t && j < |t[b]| && c.procs[b].phase == Up && c.procs[t[b][j].peer].phase == Down
    requires GotPast(t, c, t[b][j].peer, b, t[b][j].uid)
    ensures SkippedBy(c, b, t[b][j].peer, t[b][j].uid)
  {
    ReachableInv(t, c);
    assert PeersCovered(t, c, b) && PodInv(t, c, t[b][j].peer);
    assert Covered(t, c, b, t[b][j].peer, t[b][j].uid);
  }

  lemma FoundDeadIsRecorded(t: Topology, c: Cluster, b: PodName, j: nat)
    requires Shape(t, c) && b in t && j < |t[b]|
    ensures FoundDead(t, c, b, Skipped(t[b][j].peer, t[b][j].uid)) <==> RecordedDead(c.procs[b], j)
  {
    assert DistinctUids(t[b]);
  }
}
