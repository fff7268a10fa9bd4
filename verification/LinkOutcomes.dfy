/** How the links of an ADD are settled, and what that says about both ends. */
module LinkOutcomes {
  import opened PodNames
  import opened TopologyStore
  import opened LinkProtocol
  import opened LinkInvariants

  /** Link j of the pod's current ADD has its outcome. */
  predicate Settled(ph: Phase, j: nat) {
    match ph
    case Walking(i) => j < i
    case Skipping(i) => j <= i
    case Deciding(i, _) => j < i
    case Polling(i, _) => j < i
    case Up => true
    case _ => false
  }

  ghost predicate OutcomesComplete(t: Topology, c: Cluster, p: PodName)
    requires Shape(t, c) && p in t
  {
    var pr := c.procs[p];
    && (Adding(pr.phase) || pr.phase == Up ==>
          forall j :: 0 <= j < |t[p]| ==> (j in pr.outcomes <==> Settled(pr.phase, j)))
    && (pr.phase.Publishing? ==> pr.outcomes == map[])
    && (pr.phase.Skipping? ==> pr.outcomes[pr.phase.at] == PeerDead)
  }

  /** Only the lower-priority end ever leaves a link to its peer. */
  ghost predicate OnlyLowerWaits(t: Topology, c: Cluster, p: PodName)
    requires Shape(t, c) && p in t
  {
    && (forall j :: 0 <= j < |t[p]| && j in c.procs[p].outcomes && c.procs[p].outcomes[j] in {Deferred, GaveUp} ==>
          !Greater(p, t[p][j].peer))
    && (c.procs[p].phase.Polling? ==> !Greater(p, t[p][c.procs[p].phase.at].peer))
  }

  ghost predicate SawDead(t: Topology, c: Cluster, p: PodName, q: PodName, u: int)
    requires Shape(t, c) && p in t
  {
    exists j :: 0 <= j < |t[p]| && t[p][j] == Link(q, u) && j in c.procs[p].outcomes && c.procs[p].outcomes[j] == PeerDead
  }

  /** Each pod publishes itself before it looks at its peers, so two pods that are
      both alive cannot both have seen the other dead. */
  ghost predicate NotBothDead(t: Topology, c: Cluster, p: PodName, q: PodName, u: int)
    requires Shape(t, c) && p in t && q in t
  {
    Alive(c.store[p].status) && Alive(c.store[q].status) ==> !(SawDead(t, c, p, q, u) && SawDead(t, c, q, p, u))
  }

  ghost predicate OutcomeInv(t: Topology, c: Cluster) {
    && Inv(t, c)
    && (forall p :: p in t ==> OutcomesComplete(t, c, p))
    && (forall p :: p in t ==> OnlyLowerWaits(t, c, p))
    && (forall p, q, u :: p in t && q in t ==> NotBothDead(t, c, p, q, u))
  }

  predicate Started(ph: Phase) {
    Adding(ph) || ph == Up
  }

  /** What any step does to the acting pod's outcomes: nothing, start an ADD, or
      settle the link at hand. */
  ghost predicate OutcomeStep(t: Topology, c: Cluster, p: PodName, pr: Proc)
    requires Shape(t, c) && p in t
  {
    || NoOutcome(t, c, p, pr)
    || (pr.phase.Publishing? && pr.outcomes == map[])
    || (exists i, o :: 0 <= i < |t[p]| && Settles(t, c, p, i, o) && Records(t, c, p, i, o, pr))
  }

  ghost predicate NoOutcome(t: Topology, c: Cluster, p: PodName, pr: Proc)
    requires Shape(t, c) && p in t
  {
    var was := c.procs[p];
    && InRange(pr.phase, |t[p]|)
    && pr.outcomes == was.outcomes
    && (Started(pr.phase) ==> Started(was.phase) && forall j :: 0 <= j < |t[p]| ==> (Settled(pr.phase, j) <==> Settled(was.phase, j)))
    && (pr.phase.Skipping? || pr.phase.Publishing? ==> pr.phase == was.phase)
    && (pr.phase.Polling? ==> !Greater(p, t[p][pr.phase.at].peer) || pr.phase == was.phase || (was.phase.Polling? && pr.phase.at == was.phase.at))
  }

  ghost predicate Records(t: Topology, c: Cluster, p: PodName, i: nat, o: Outcome, pr: Proc)
    requires Shape(t, c) && p in t
  {
    && pr.outcomes == c.procs[p].outcomes[i := o]
    && pr.phase == if o == PeerDead then Skipping(i) else AfterLink(t, p, i + 1)
  }

  /** When an outcome may be recorded. */
  ghost predicate Settles(t: Topology, c: Cluster, p: PodName, i: nat, o: Outcome)
    requires Shape(t, c) && p in t && i < |t[p]|
  {
    var l := t[p][i];
    var ph := c.procs[p].phase;
    && (ph.Walking? || ph.Deciding? || ph.Polling?) && ph.at == i
    && (o == PeerDead <==> ph.Walking?)
    && (o == PeerDead ==> !Alive(c.store[l.peer].status))
    && (o == Initiated ==> SkippedBy(c, l.peer, p, l.uid) || Greater(p, l.peer))
    && (o in {Deferred, GaveUp} ==> !SkippedBy(c, l.peer, p, l.uid))
    && (o == Deferred ==> !Greater(p, l.peer))
    && (o == GaveUp ==> ph == Polling(i, RETRY_COUNT - 1))
  }

  lemma DecideSettles(t: Topology, c: Cluster, p: PodName, mine: bool, theirs: bool)
    requires Shape(t, c) && p in t && c.procs[p].phase.Deciding?
    ensures OutcomeStep(t, c, p, DecideEffect(t, c, p, mine, theirs))
  {
    var i := c.procs[p].phase.at;
    var pr := DecideEffect(t, c, p, mine, theirs);
    if pr.phase != Polling(i, 0) {
      assert Settles(t, c, p, i, pr.outcomes[i]) && Records(t, c, p, i, pr.outcomes[i], pr);
    }
  }

  lemma PollSettles(t: Topology, c: Cluster, p: PodName, present: bool, late: bool)
    requires Shape(t, c) && p in t && c.procs[p].phase.Polling?
    ensures OutcomeStep(t, c, p, PollEffect(t, c, p, present, late))
  {
    var i := c.procs[p].phase.at;
    var pr := PollEffect(t, c, p, present, late);
    if !pr.phase.Polling? {
      assert Settles(t, c, p, i, pr.outcomes[i]) && Records(t, c, p, i, pr.outcomes[i], pr);
    }
  }

  lemma LookUpSettles(t: Topology, c: Cluster, p: PodName)
    requires Shape(t, c) && p in t && c.procs[p].phase.Walking?
    ensures OutcomeStep(t, c, p, LookUpEffect(t, c, p))
  {
    var i := c.procs[p].phase.at;
    var pr := LookUpEffect(t, c, p);
    if pr.phase.Skipping? {
      assert Settles(t, c, p, i, PeerDead) && Records(t, c, p, i, PeerDead, pr);
    }
  }

  lemma UpdateSettlesNothing(t: Topology, c: Cluster, p: PodName)
    requires Shape(t, c) && p in t
    ensures NoOutcome(t, c, p, EffectOf(t, c, TryUpdate(p)).proc)
  {
    EffectInRange(t, c, TryUpdate(p));
  }

  lemma FetchAndFailSettleNothing(t: Topology, c: Cluster, e: Event)
    requires Shape(t, c) && e.pod in t && (e.Fetch? || e.FailAdd? || e.BeginDel? || e.FailDel?)
    ensures NoOutcome(t, c, e.pod, EffectOf(t, c, e).proc)
  {
  }

  lemma StepSettles(t: Topology, c: Cluster, e: Event)
    requires Shape(t, c) && e.pod in t
    ensures OutcomeStep(t, c, e.pod, Step(t, c, e).procs[e.pod])
  {
    var p := e.pod;
    match e {
      case Decide(_, mine, theirs) => if c.procs[p].phase.Deciding? { DecideSettles(t, c, p, mine, theirs); }
      case Poll(_, present, late) => if c.procs[p].phase.Polling? { PollSettles(t, c, p, present, late); }
      case LookUpPeer(_) => if c.procs[p].phase.Walking? { LookUpSettles(t, c, p); }
      case TryUpdate(_) => UpdateSettlesNothing(t, c, p);
      case BeginAdd(_, _) =>
      case _ => FetchAndFailSettleNothing(t, c, e);
    }
  }

  // -------------------------------------------------------- preservation

  lemma OutcomesStayComplete(t: Topology, c: Cluster, p: PodName, pr: Proc)
    requires Shape(t, c) && p in t && OutcomesComplete(t, c, p) && OutcomeStep(t, c, p, pr) && InRange(pr.phase, |t[p]|)
    ensures OutcomesComplete(t, WithProc(c, p, pr), p)
  {
  }

  lemma LowerStillWaits(t: Topology, c: Cluster, p: PodName, pr: Proc)
    requires Shape(t, c) && p in t && OnlyLowerWaits(t, c, p) && OutcomeStep(t, c, p, pr) && InRange(pr.phase, |t[p]|)
    ensures OnlyLowerWaits(t, WithProc(c, p, pr), p)
  {
  }

  lemma PublishingIsOld(t: Topology, c: Cluster, e: Event)
    requires Shape(t, c) && e.pod in t && !(e.BeginAdd? && c.procs[e.pod].phase == Down)
    ensures EffectOf(t, c, e).proc.phase.Publishing? ==> EffectOf(t, c, e).proc.outcomes == c.procs[e.pod].outcomes
  {
    hide WellFormed, EverMade, Alive;
  }

  /** An outcome lasts until the pod's next ADD. */
  lemma OutcomeKept(t: Topology, c: Cluster, e: Event, p: PodName, j: nat)
    requires Shape(t, c) && p in t && j < |t[p]| && OutcomesComplete(t, c, p) && j in c.procs[p].outcomes
    requires !(e.BeginAdd? && e.pod == p && c.procs[p].phase == Down)
    ensures var d := Step(t, c, e); j in d.procs[p].outcomes && d.procs[p].outcomes[j] == c.procs[p].outcomes[j]
  {
    hide EffectOf, WellFormed;
    if e.pod == p {
      StepSettles(t, c, e);
      PublishingIsOld(t, c, e);
    }
  }

  /** Seeing a peer dead is something a step adds only while that peer is dead. */
  lemma SawDeadGrows(t: Topology, c: Cluster, e: Event, p: PodName, q: PodName, u: int)
    requires Shape(t, c) && p in t && q in t && SawDead(t, Step(t, c, e), p, q, u)
    ensures SawDead(t, c, p, q, u) || (e.LookUpPeer? && !Alive(c.store[q].status))
  {
    var d := Step(t, c, e);
    if e.pod == p {
      StepSettles(t, c, e);
      var j :| 0 <= j < |t[p]| && t[p][j] == Link(q, u) && j in d.procs[p].outcomes && d.procs[p].outcomes[j] == PeerDead;
      if j in c.procs[p].outcomes && c.procs[p].outcomes[j] == PeerDead {
        assert SawDead(t, c, p, q, u);
      } else {
        OnlyLookUpSeesDead(t, c, e, j);
      }
    }
  }

  lemma OnlyLookUpSeesDead(t: Topology, c: Cluster, e: Event, j: nat)
    requires Shape(t, c) && e.pod in t && j < |t[e.pod]|
    requires j in Step(t, c, e).procs[e.pod].outcomes && Step(t, c, e).procs[e.pod].outcomes[j] == PeerDead
    requires !(j in c.procs[e.pod].outcomes && c.procs[e.pod].outcomes[j] == PeerDead)
    ensures e.LookUpPeer? && !Alive(c.store[t[e.pod][j].peer].status)
  {
    StepSettles(t, c, e);
  }

  lemma CommitComesAliveFresh(t: Topology, c: Cluster, p: PodName, q: PodName)
    requires Shape(t, c) && p in t && q in t && Committing(t, c, q)
    requires LifeMatchesPhase(t, c, p) && OutcomesComplete(t, c, p)
    requires !Alive(c.store[p].status) && Alive(Committed(t, c, q).store[p].status)
    ensures q == p && c.procs[p].outcomes == map[]
  {
  }

  /** A pod comes alive only by publishing itself, with no outcomes yet. */
  lemma ComesAliveFresh(t: Topology, c: Cluster, e: Event, p: PodName)
    requires Inv(t, c) && p in t && OutcomesComplete(t, c, p)
    requires !Alive(c.store[p].status) && Alive(Step(t, c, e).store[p].status)
    ensures e == TryUpdate(p) && Step(t, c, e).procs[p].outcomes == map[]
  {
    assert PodInv(t, c, p) && e.TryUpdate? && PodInv(t, c, e.pod);
    UpdateIsCommit(t, c, e.pod);
    CommitComesAliveFresh(t, c, p, e.pod);
  }

  lemma StillNotBothDead(t: Topology, c: Cluster, e: Event, p: PodName, q: PodName, u: int)
    requires OutcomeInv(t, c) && p in t && q in t
    ensures NotBothDead(t, Step(t, c, e), p, q, u)
  {
    var d := Step(t, c, e);
    if Alive(d.store[p].status) && Alive(d.store[q].status) && SawDead(t, d, p, q, u) && SawDead(t, d, q, p, u) {
      SawDeadGrows(t, c, e, p, q, u);
      SawDeadGrows(t, c, e, q, p, u);
      if !Alive(c.store[p].status) {
        ComesAliveFresh(t, c, e, p);
      } else if !Alive(c.store[q].status) {
        ComesAliveFresh(t, c, e, q);
      }
      assert NotBothDead(t, c, p, q, u);
    }
  }

  lemma StepKeepsPodOutcomes(t: Topology, c: Cluster, e: Event, p: PodName)
    requires Shape(t, c) && p in t && OutcomesComplete(t, c, p) && OnlyLowerWaits(t, c, p)
    ensures OutcomesComplete(t, Step(t, c, e), p) && OnlyLowerWaits(t, Step(t, c, e), p)
  {
    if p == e.pod {
      StepSettles(t, c, e);
      var pr := Step(t, c, e).procs[p];
      OutcomesStayComplete(t, c, p, pr);
      LowerStillWaits(t, c, p, pr);
    }
  }

  lemma StepKeepsOutcomeInv(t: Topology, c: Cluster, e: Event)
    requires OutcomeInv(t, c)
    ensures OutcomeInv(t, Step(t, c, e))
  {
    StepKeepsInv(t, c, e);
    var d := Step(t, c, e);
    forall p | p in t ensures OutcomesComplete(t, d, p) && OnlyLowerWaits(t, d, p) { StepKeepsPodOutcomes(t, c, e, p); }
    forall p, q, u | p in t && q in t ensures NotBothDead(t, d, p, q, u) { StillNotBothDead(t, c, e, p, q, u); }
  }

  lemma {:induction false} ExecKeepsOutcomeInv(t: Topology, c: Cluster, es: seq<Event>)
    requires OutcomeInv(t, c)
    ensures OutcomeInv(t, Exec(t, c, es))
  {
    if es != [] {
      ExecKeepsOutcomeInv(t, c, es[..|es| - 1]);
      StepKeepsOutcomeInv(t, Exec(t, c, es[..|es| - 1]), es[|es| - 1]);
    }
  }

  lemma InitOutcomeInv(t: Topology)
    requires WellFormed(t)
    ensures OutcomeInv(t, Init(t))
  {
    InitInv(t);
  }

  lemma ReachableOutcomeInv(t: Topology, c: Cluster)
    requires Reachable(t, c)
    ensures OutcomeInv(t, c)
  {
    var es := ReachableByRun(t, c);
    InitOutcomeInv(t);
    ExecKeepsOutcomeInv(t, Init(t), es);
  }
}
