/** The first boot of a topology: no pod has been deleted yet. */
module LinkBoot {
  import opened Options
  import opened PodNames
  import opened TopologyStore
  import opened LinkProtocol
  import opened LinkInvariants
  import opened LinkOutcomes
  import opened LinkTheorems

  predicate NoDeletes(es: seq<Event>) {
    forall e :: e in es ==> !e.BeginDel? && !e.FailDel?
  }

  ghost predicate FirstBootInv(t: Topology, c: Cluster) {
    && OutcomeInv(t, c)
    && (forall p :: p in t ==> !Deleting(c.procs[p].phase) && c.procs[p].stopped.None?)
    && (forall p :: p in t ==> ListedSawDead(t, c, p))
    && (forall p :: p in t ==> InitiatedForReason(t, c, p))
  }

  ghost predicate ListedSawDead(t: Topology, c: Cluster, p: PodName)
    requires Shape(t, c) && p in t
  {
    forall e :: e in c.store[p].status.skipped ==> SawDead(t, c, p, e.podName, e.linkId)
  }

  ghost predicate InitiatedForReason(t: Topology, c: Cluster, p: PodName)
    requires Shape(t, c) && p in t
  {
    forall j :: 0 <= j < |t[p]| && j in c.procs[p].outcomes && c.procs[p].outcomes[j] == Initiated ==>
      Greater(p, t[p][j].peer) || SkippedBy(c, t[p][j].peer, p, t[p][j].uid)
  }

  lemma SawDeadStays(t: Topology, c: Cluster, e: Event, p: PodName, q: PodName, u: int)
    requires OutcomeInv(t, c) && p in t && SawDead(t, c, p, q, u)
    requires !(e.BeginAdd? && e.pod == p && c.procs[p].phase == Down)
    ensures SawDead(t, Step(t, c, e), p, q, u)
  {
    hide EffectOf, WellFormed;
    if e.pod == p {
      assert OutcomesComplete(t, c, p);
      StepSettles(t, c, e);
      var j :| 0 <= j < |t[p]| && t[p][j] == Link(q, u) && j in c.procs[p].outcomes && c.procs[p].outcomes[j] == PeerDead;
      OutcomeKept(t, c, e, p, j);
    }
  }

  lemma ListedIsNotDown(t: Topology, c: Cluster, p: PodName, x: Skipped)
    requires Shape(t, c) && p in t && PodInv(t, c, p) && c.procs[p].stopped.None? && x in c.store[p].status.skipped
    ensures c.procs[p].phase != Down
  {
    assert NotDrained(t[p], c.procs[p], x);
  }

  lemma ListedStillSawDead(t: Topology, c: Cluster, e: Event, p: PodName)
    requires FirstBootInv(t, c) && p in t && !e.BeginDel? && !e.FailDel?
    ensures ListedSawDead(t, Step(t, c, e), p)
  {
    var d := Step(t, c, e);
    assert PodInv(t, c, p) && ListedSawDead(t, c, p) && OutcomesComplete(t, c, p);
    forall x | x in d.store[p].status.skipped ensures SawDead(t, d, p, x.podName, x.linkId) {
      if x in c.store[p].status.skipped {
        ListedIsNotDown(t, c, p, x);
        SawDeadStays(t, c, e, p, x.podName, x.linkId);
      } else {
        NewEntrySawDead(t, c, e, p, x);
        SawDeadStays(t, c, e, p, x.podName, x.linkId);
      }
    }
  }

  lemma NewEntrySawDead(t: Topology, c: Cluster, e: Event, p: PodName, x: Skipped)
    requires FirstBootInv(t, c) && p in t
    requires x in Step(t, c, e).store[p].status.skipped && x !in c.store[p].status.skipped
    ensures e == TryUpdate(p) && SawDead(t, c, p, x.podName, x.linkId)
  {
    assert e.pod in t && PodInv(t, c, e.pod) && OutcomesComplete(t, c, p) && !Deleting(c.procs[e.pod].phase);
    WritingIsCommitting(t, c, e);
    CommitAddsOwn(t, c, e.pod, p, x);
    assert t[p][c.procs[p].phase.at] == Link(x.podName, x.linkId);
  }

  lemma CommitAddsOwn(t: Topology, c: Cluster, q: PodName, p: PodName, x: Skipped)
    requires Shape(t, c) && q in t && p in t && Writing(c.procs[q].phase) && !Deleting(c.procs[q].phase)
    requires p in Committed(t, c, q).store && x in Committed(t, c, q).store[p].status.skipped && x !in c.store[p].status.skipped
    ensures q == p && c.procs[p].phase.Skipping?
    ensures t[p][c.procs[p].phase.at] == Link(x.podName, x.linkId)
  {
  }

  lemma ReasonStays(t: Topology, c: Cluster, e: Event, b: PodName, x: Skipped)
    requires FirstBootInv(t, c) && b in t && x in c.store[b].status.skipped
    ensures x in Step(t, c, e).store[b].status.skipped
  {
    assert PodInv(t, c, b) && !Deleting(c.procs[b].phase) && (e.pod in t ==> PodInv(t, c, e.pod));
    EntryStays(t, c, e, b, x);
  }

  lemma StillInitiatedForReason(t: Topology, c: Cluster, e: Event, p: PodName)
    requires FirstBootInv(t, c) && p in t
    ensures InitiatedForReason(t, Step(t, c, e), p)
  {
    hide EffectOf, PodInv, OutcomesComplete;
    var d := Step(t, c, e);
    forall j | 0 <= j < |t[p]| && j in d.procs[p].outcomes && d.procs[p].outcomes[j] == Initiated
      ensures Greater(p, t[p][j].peer) || SkippedBy(d, t[p][j].peer, p, t[p][j].uid)
    {
      assert InitiatedForReason(t, c, p);
      if e.pod == p { InitiatingNeedsReason(t, c, e, j); }
      if SkippedBy(c, t[p][j].peer, p, t[p][j].uid) {
        ReasonStays(t, c, e, t[p][j].peer, Skipped(p, t[p][j].uid));
      }
    }
  }

  lemma InitiatingNeedsReason(t: Topology, c: Cluster, e: Event, j: nat)
    requires Shape(t, c) && e.pod in t && j < |t[e.pod]| && InitiatedForReason(t, c, e.pod)
    requires j in Step(t, c, e).procs[e.pod].outcomes && Step(t, c, e).procs[e.pod].outcomes[j] == Initiated
    ensures Greater(e.pod, t[e.pod][j].peer) || SkippedBy(c, t[e.pod][j].peer, e.pod, t[e.pod][j].uid)
  {
    StepSettles(t, c, e);
  }

  lemma StillNotDeleting(t: Topology, c: Cluster, e: Event, p: PodName)
    requires Shape(t, c) && p in t && !Deleting(c.procs[p].phase) && c.procs[p].stopped.None? && !e.BeginDel? && !e.FailDel?
    ensures !Deleting(Step(t, c, e).procs[p].phase) && Step(t, c, e).procs[p].stopped.None?
  {
    if e.pod == p {
      match e
      case TryUpdate(_) => UpdateStartsNoDel(t, c, p);
      case Fetch(_) =>
      case _ => OtherStartsNoDel(t, c, e);
    }
  }

  lemma UpdateStartsNoDel(t: Topology, c: Cluster, p: PodName)
    requires Shape(t, c) && p in t && !Deleting(c.procs[p].phase) && c.procs[p].stopped.None?
    ensures var pr := EffectOf(t, c, TryUpdate(p)).proc; !Deleting(pr.phase) && pr.stopped.None?
  {
  }

  lemma OtherStartsNoDel(t: Topology, c: Cluster, e: Event)
    requires Shape(t, c) && e.pod in t && !Deleting(c.procs[e.pod].phase) && c.procs[e.pod].stopped.None?
    requires !e.BeginDel? && !e.FailDel? && !e.TryUpdate? && !e.Fetch?
    ensures var pr := EffectOf(t, c, e).proc; !Deleting(pr.phase) && pr.stopped.None?
  {
  }

  lemma {:induction false} FirstBootKeeps(t: Topology, es: seq<Event>)
    requires WellFormed(t) && NoDeletes(es)
    ensures FirstBootInv(t, Exec(t, Init(t), es))
  {
    if es == [] {
      InitOutcomeInv(t);
    } else {
      var front, e := es[..|es| - 1], es[|es| - 1];
      FirstBootKeeps(t, front);
      var c := Exec(t, Init(t), front);
      StepKeepsOutcomeInv(t, c, e);
      forall p | p in t
        ensures var d := Step(t, c, e);
          !Deleting(d.procs[p].phase) && d.procs[p].stopped.None? && ListedSawDead(t, d, p) && InitiatedForReason(t, d, p)
      {
        StillNotDeleting(t, c, e, p);
        ListedStillSawDead(t, c, e, p);
        StillInitiatedForReason(t, c, e, p);
      }
    }
  }

  /** From empty skip lists, while no pod has been deleted, no interleaving lets
      both ends of a link take the initiating branch. */
  lemma AtMostOneInitiator(t: Topology, es: seq<Event>, p: PodName, q: PodName, i: nat, j: nat)
    requires WellFormed(t) && NoDeletes(es) && p in t && q in t && i < |t[p]| && j < |t[q]|
    requires t[p][i].peer == q && t[q][j] == Link(p, t[p][i].uid)
    ensures var c := Exec(t, Init(t), es);
      !(i in c.procs[p].outcomes && j in c.procs[q].outcomes && c.procs[p].outcomes[i] == Initiated && c.procs[q].outcomes[j] == Initiated)
  {
    FirstBootKeeps(t, es);
    var c := Exec(t, Init(t), es);
    if i in c.procs[p].outcomes && j in c.procs[q].outcomes && c.procs[p].outcomes[i] == Initiated && c.procs[q].outcomes[j] == Initiated {
      ExactlyOneIsGreater(p, q);
      if Greater(p, q) {
        LowerWasSkipped(t, c, q, j, p, i);
      } else {
        LowerWasSkipped(t, c, p, i, q, j);
      }
    }
  }

  lemma LowerWasSkipped(t: Topology, c: Cluster, lo: PodName, i: nat, hi: PodName, j: nat)
    requires FirstBootInv(t, c) && lo in t && hi in t && i < |t[lo]| && j < |t[hi]|
    requires t[lo][i] == Link(hi, t[hi][j].uid) && t[hi][j].peer == lo && !Greater(lo, hi)
    requires i in c.procs[lo].outcomes && c.procs[lo].outcomes[i] == Initiated
    ensures j in c.procs[hi].outcomes && c.procs[hi].outcomes[j] == PeerDead
  {
    assert InitiatedForReason(t, c, lo) && ListedSawDead(t, c, hi) && DistinctUids(t[hi]);
    assert SawDead(t, c, hi, lo, t[hi][j].uid);
  }
}
