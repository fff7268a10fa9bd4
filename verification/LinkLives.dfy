/** The life a pod is in: which ADD published it, and which DEL ends it. */
module LinkLives {
  import opened Options
  import opened PodNames
  import opened TopologyStore
  import opened LinkProtocol
  import opened LinkInvariants
  import opened LinkTheorems

  /** What CNI handed to the last ADD of p that a run began. */
  ghost function LastAdd(t: Topology, es: seq<Event>, p: PodName): Option<Life>
    requires WellFormed(t) && p in t
  {
    if es == [] then None
    else
      var front, e := es[..|es| - 1], es[|es| - 1];
      if e.BeginAdd? && e.pod == p && Proper(e.life) && Exec(t, Init(t), front).procs[p].phase == Down then Some(e.life)
      else LastAdd(t, front, p)
  }

  predicate HasLife(s: Status, l: Option<Life>) {
    l.Some? && Proper(l.value) && s.srcIp == l.value.srcIp && s.netNs == l.value.netNs && s.containerId == l.value.containerId
  }

  /** A pod that is being published is so with l; a pod that is alive was. */
  ghost predicate LivesFor(t: Topology, c: Cluster, p: PodName, l: Option<Life>)
    requires Shape(t, c) && p in t
  {
    && (c.procs[p].phase.Publishing? ==> Some(c.procs[p].phase.life) == l)
    && (Alive(c.store[p].status) ==> HasLife(c.store[p].status, l))
  }

  /** The life of the pod after an event. */
  function NextLife(c: Cluster, e: Event, p: PodName, l: Option<Life>): Option<Life>
    requires p in c.procs
  {
    if e.BeginAdd? && e.pod == p && Proper(e.life) && c.procs[p].phase == Down then Some(e.life) else l
  }

  lemma CommitKeepsLivesFor(t: Topology, c: Cluster, q: PodName, p: PodName, l: Option<Life>)
    requires Shape(t, c) && q in t && p in t && Committing(t, c, q) && LivesFor(t, c, p, l)
    requires LifeMatchesPhase(t, c, p)
    ensures Shape(t, Committed(t, c, q)) && LivesFor(t, Committed(t, c, q), p, l)
  {
    CommitKeepsShape(t, c, q);
  }

  lemma OwnStepKeepsPublishing(t: Topology, c: Cluster, e: Event, l: Option<Life>)
    requires Shape(t, c) && e.pod in t && LivesFor(t, c, e.pod, l)
    ensures var ph := EffectOf(t, c, e).proc.phase; ph.Publishing? ==> Some(ph.life) == NextLife(c, e, e.pod, l)
  {
    hide WellFormed, EverMade, Alive;
  }

  lemma StepKeepsLivesFor(t: Topology, c: Cluster, e: Event, p: PodName, l: Option<Life>)
    requires Inv(t, c) && p in t && LivesFor(t, c, p, l)
    ensures LivesFor(t, Step(t, c, e), p, NextLife(c, e, p, l))
  {
    hide EffectOf, HasLife;
    assert PodInv(t, c, p);
    if e.pod in t {
      assert PodInv(t, c, e.pod);
      if EffectOf(t, c, e).written.Some? {
        WritingIsCommitting(t, c, e);
        CommitKeepsLivesFor(t, c, e.pod, p, l);
      } else if e.pod == p {
        OwnStepKeepsPublishing(t, c, e, l);
      }
    }
  }

  lemma {:induction false} RunLivesFor(t: Topology, es: seq<Event>, p: PodName)
    requires WellFormed(t) && p in t
    ensures LivesFor(t, Exec(t, Init(t), es), p, LastAdd(t, es, p))
  {
    hide EffectOf;
    if es != [] {
      var front := es[..|es| - 1];
      RunLivesFor(t, front, p);
      InitInv(t);
      ExecKeepsInv(t, Init(t), front);
      StepKeepsLivesFor(t, Exec(t, Init(t), front), es[|es| - 1], p, LastAdd(t, front, p));
    }
  }

  /** In every run a pod that is alive has in its object what its last ADD was given. */
  lemma AliveIsLastAdd(t: Topology, es: seq<Event>, p: PodName)
    requires WellFormed(t) && p in t && Alive(Exec(t, Init(t), es).store[p].status)
    ensures HasLife(Exec(t, Init(t), es).store[p].status, LastAdd(t, es, p))
  {
    RunLivesFor(t, es, p);
  }

  /** The event is a DEL for a pod that is up, or whose ADD or DEL has failed, and it names
      the container that the pod lives in. */
  predicate EndsLife(c: Cluster, e: Event, l: Option<Life>)
    requires e.pod in c.procs
  {
    e.BeginDel? && c.procs[e.pod].phase in {Up, Broken} && l.Some? && e.containerId == l.value.containerId
  }

  lemma OnlyDelsRetire(t: Topology, c: Cluster, e: Event)
    requires Shape(t, c) && e.pod in t && LifeMatchesPhase(t, c, e.pod) && c.procs[e.pod].phase != Retiring
    ensures Step(t, c, e).procs[e.pod].phase == Retiring <==>
      e.BeginDel? && c.procs[e.pod].phase in {Up, Broken} && e.containerId != "" && e.containerId == c.store[e.pod].status.containerId
  {
    hide WellFormed, EverMade;
    if !e.BeginDel? { OthersNeverRetire(t, c, e); }
  }

  lemma OthersNeverRetire(t: Topology, c: Cluster, e: Event)
    requires Shape(t, c) && e.pod in t && c.procs[e.pod].phase != Retiring && !e.BeginDel?
    ensures EffectOf(t, c, e).proc.phase != Retiring
  {
    hide WellFormed, EverMade, UpdateEffect;
    if e.TryUpdate? { UpdateNeverRetires(t, c, e.pod); }
  }

  lemma UpdateNeverRetires(t: Topology, c: Cluster, p: PodName)
    requires Shape(t, c) && p in t && c.procs[p].phase != Retiring
    ensures EffectOf(t, c, TryUpdate(p)).proc.phase != Retiring
  {
  }

  lemma LastAddIsRecorded(t: Topology, c: Cluster, e: Event, l: Option<Life>)
    requires Shape(t, c) && e.pod in t && LifeMatchesPhase(t, c, e.pod) && LivesFor(t, c, e.pod, l)
    ensures EndsLife(c, e, l) <==>
      e.BeginDel? && c.procs[e.pod].phase in {Up, Broken} && e.containerId != "" && e.containerId == c.store[e.pod].status.containerId
  {
  }

  lemma OtherDelsDoNothing(t: Topology, c: Cluster, e: Event)
    requires Shape(t, c) && e.BeginDel? && e.pod in t && Step(t, c, e).procs[e.pod].phase != Retiring
    ensures Step(t, c, e) == c
  {
    assert c.procs[e.pod := c.procs[e.pod]] == c.procs;
  }

  /** After any run, an event starts to retire a pod if and only if it is a DEL for the
      container of the pod's last ADD, while the pod is up or its ADD or DEL has
      failed; every other DEL, also one for a container that the pod had before,
      leaves everything as it is. */
  lemma DelEndsItsOwnLife(t: Topology, es: seq<Event>, e: Event)
    requires WellFormed(t) && e.pod in t && Exec(t, Init(t), es).procs[e.pod].phase != Retiring
    ensures var c := Exec(t, Init(t), es);
      && (Step(t, c, e).procs[e.pod].phase == Retiring <==> EndsLife(c, e, LastAdd(t, es, e.pod)))
      && (e.BeginDel? && !EndsLife(c, e, LastAdd(t, es, e.pod)) ==> Step(t, c, e) == c)
  {
    hide EffectOf, LivesFor, LifeMatchesPhase, EndsLife, ReadIsHonest, EntriesAreLinks, ListDrains, PeersCovered, LastAdd;
    var c, l := Exec(t, Init(t), es), LastAdd(t, es, e.pod);
    InitInv(t);
    ExecKeepsInv(t, Init(t), es);
    assert PodInv(t, c, e.pod);
    RunLivesFor(t, es, e.pod);
    OnlyDelsRetire(t, c, e);
    LastAddIsRecorded(t, c, e, l);
    if e.BeginDel? && !EndsLife(c, e, l) { OtherDelsDoNothing(t, c, e); }
  }

  lemma FailingBreaks(t: Topology, c: Cluster, p: PodName)
    requires Shape(t, c) && p in t && Adding(c.procs[p].phase)
    ensures Step(t, c, FailAdd(p)) ==
      WithProc(c, p, c.procs[p].(phase := if c.procs[p].phase.Publishing? then Down else Broken, read := None))
  {
  }

  /** An ADD may fail at any point. It takes nothing back: a pod that was published stays
      alive, and the DEL for its container then retires it; one that was not may be
      added again. */
  lemma FailedAddCanBeDeleted(t: Topology, es: seq<Event>, p: PodName)
    requires WellFormed(t) && p in t && Adding(Exec(t, Init(t), es).procs[p].phase)
    ensures var c := Exec(t, Init(t), es);
      var d := Step(t, c, FailAdd(p));
      var l := LastAdd(t, es, p);
      && d.store == c.store && d.log == c.log && d.procs[p].outcomes == c.procs[p].outcomes && d.procs[p].built == c.procs[p].built
      && l.Some?
      && if Alive(c.store[p].status) then Step(t, d, BeginDel(p, l.value.containerId)).procs[p].phase == Retiring
         else d.procs[p].phase == Down
  {
    hide EffectOf, LivesFor, EndsLife, PeersCovered, LastAdd;
    var c, l := Exec(t, Init(t), es), LastAdd(t, es, p);
    InitInv(t);
    ExecKeepsInv(t, Init(t), es);
    assert PodInv(t, c, p);
    RunLivesFor(t, es, p);
    FailingBreaks(t, c, p);
    var d := Step(t, c, FailAdd(p));
    LivesForSome(t, c, p, l);
    StepKeepsInv(t, c, FailAdd(p));
    assert PodInv(t, d, p);
    StepKeepsLivesFor(t, c, FailAdd(p), p, l);
    if Alive(c.store[p].status) {
      OnlyDelsRetire(t, d, BeginDel(p, l.value.containerId));
      LastAddIsRecorded(t, d, BeginDel(p, l.value.containerId), l);
      EndsBroken(d, p, l);
    }
  }

  /** A DEL that fails before the pod was marked dead takes nothing back either: the pod
      stays alive, and the DEL can be repeated. */
  lemma FailedDelCanBeRepeated(t: Topology, es: seq<Event>, p: PodName)
    requires WellFormed(t) && p in t && Exec(t, Init(t), es).procs[p].phase == Retiring
    ensures var c := Exec(t, Init(t), es);
      var d := Step(t, c, FailDel(p));
      var l := LastAdd(t, es, p);
      && d.store == c.store && d.log == c.log && d.procs[p].phase == Broken && d.procs[p].stopped == c.procs[p].stopped
      && l.Some? && Step(t, d, BeginDel(p, l.value.containerId)).procs[p].phase == Retiring
  {
    hide EffectOf, EndsLife, PeersCovered, LastAdd;
    var c, l := Exec(t, Init(t), es), LastAdd(t, es, p);
    InitInv(t);
    ExecKeepsInv(t, Init(t), es);
    assert PodInv(t, c, p);
    RunLivesFor(t, es, p);
    FailingDelBreaks(t, c, p);
    StepKeepsInv(t, c, FailDel(p));
    var d := Step(t, c, FailDel(p));
    assert PodInv(t, d, p);
    StepKeepsLivesFor(t, c, FailDel(p), p, l);
    OnlyDelsRetire(t, d, BeginDel(p, l.value.containerId));
    LastAddIsRecorded(t, d, BeginDel(p, l.value.containerId), l);
    EndsBroken(d, p, l);
  }

  lemma FailingDelBreaks(t: Topology, c: Cluster, p: PodName)
    requires Shape(t, c) && p in t && c.procs[p].phase == Retiring
    ensures Step(t, c, FailDel(p)) == WithProc(c, p, c.procs[p].(phase := Broken, read := None))
  {
  }

  lemma LivesForSome(t: Topology, c: Cluster, p: PodName, l: Option<Life>)
    requires Shape(t, c) && p in t && LivesFor(t, c, p, l) && LifeMatchesPhase(t, c, p) && Adding(c.procs[p].phase)
    ensures l.Some? && (Alive(c.store[p].status) <==> !c.procs[p].phase.Publishing?)
  {
  }

  lemma EndsBroken(c: Cluster, p: PodName, l: Option<Life>)
    requires p in c.procs && c.procs[p].phase == Broken && l.Some?
    ensures EndsLife(c, BeginDel(p, l.value.containerId), l)
  {
  }
}
