/** ADDs that overlap: when exactly a link between two pods that are both up was
    made by nobody. */
module LinkWindow {
  import opened Options
  import opened PodNames
  import opened TopologyStore
  import opened LinkProtocol
  import opened LinkInvariants
  import opened LinkOutcomes
  import opened LinkOrigins
  import opened LinkTheorems

  /** Link i of hi and link j of lo are the two ends of one link; hi has the priority. */
  predicate Ends(t: Topology, hi: PodName, lo: PodName, i: nat, j: nat) {
    && hi in t && lo in t && i < |t[hi]| && j < |t[lo]| && Greater(hi, lo)
    && t[hi][i].peer == lo && t[lo][j] == Link(hi, t[hi][i].uid)
  }

  predicate SawItDead(c: Cluster, p: PodName, i: nat)
    requires p in c.procs
  {
    i in c.procs[p].outcomes && c.procs[p].outcomes[i] == PeerDead
  }

  predicate LeftIt(c: Cluster, p: PodName, j: nat)
    requires p in c.procs
  {
    j in c.procs[p].outcomes && c.procs[p].outcomes[j] in {Deferred, GaveUp}
  }

  // ------------------------------------------------------------- outcomes

  /** When both ends of a link are up, it was made by neither if and only if the higher
      end saw its peer dead and the lower one left the link to it. */
  lemma BothUpUnmadeLink(t: Topology, c: Cluster, hi: PodName, lo: PodName, i: nat, j: nat)
    requires Reachable(t, c) && Ends(t, hi, lo, i, j) && c.procs[hi].phase == Up && c.procs[lo].phase == Up
    ensures !MadeIt(c, hi, i) && !MadeIt(c, lo, j) <==> SawItDead(c, hi, i) && LeftIt(c, lo, j)
  {
    ReachableOutcomeInv(t, c);
    EitherMadeDeadOrLeft(t, c, hi, i);
    EitherMadeDeadOrLeft(t, c, lo, j);
    UpNotBothDead(t, c, hi, lo, i, j);
    PriorityIsStrict(hi, lo);
  }

  lemma EitherMadeDeadOrLeft(t: Topology, c: Cluster, p: PodName, i: nat)
    requires OutcomeInv(t, c) && p in t && i < |t[p]| && c.procs[p].phase == Up
    ensures MadeIt(c, p, i) <==> !SawItDead(c, p, i) && !LeftIt(c, p, i)
    ensures !(SawItDead(c, p, i) && LeftIt(c, p, i))
    ensures LeftIt(c, p, i) ==> !Greater(p, t[p][i].peer)
  {
    UpIsSettled(t, c, p, i);
  }

  lemma PriorityIsStrict(hi: PodName, lo: PodName)
    requires Greater(hi, lo)
    ensures hi != lo && !Greater(lo, hi)
  {
    if hi != lo { ExactlyOneIsGreater(hi, lo); } else { NotAboveItself(hi); }
  }

  lemma {:induction false} NotAboveItself(p: PodName)
    ensures !Greater(p, p)
  {
    if p != [] { NotAboveItself(p[1..]); }
  }

  lemma UpNotBothDead(t: Topology, c: Cluster, p: PodName, q: PodName, i: nat, j: nat)
    requires OutcomeInv(t, c) && p in t && q in t && i < |t[p]| && j < |t[q]|
    requires t[p][i].peer == q && t[q][j] == Link(p, t[p][i].uid)
    requires c.procs[p].phase == Up && c.procs[q].phase == Up
    ensures !(SawItDead(c, p, i) && SawItDead(c, q, j))
  {
    var u := t[p][i].uid;
    assert PodInv(t, c, p) && PodInv(t, c, q) && NotBothDead(t, c, p, q, u);
    assert SawItDead(c, p, i) ==> SawDead(t, c, p, q, u);
  }

  /** A poll that finds the pod in its peer's list never ends in giving up: the
      budget runs out only while the peer's Skip is not yet committed. */
  lemma GivesUpOnlyUnskipped(t: Topology, c: Cluster, e: Event, j: nat)
    requires Shape(t, c) && e.pod in t && j < |t[e.pod]|
    requires j !in c.procs[e.pod].outcomes
    requires j in Step(t, c, e).procs[e.pod].outcomes && Step(t, c, e).procs[e.pod].outcomes[j] == GaveUp
    ensures c.procs[e.pod].phase == Polling(j, 19)
    ensures !SkippedBy(c, t[e.pod][j].peer, e.pod, t[e.pod][j].uid)
  {
    StepSettles(t, c, e);
  }

  // ------------------------------------------------------------ the window

  /** With event e pod p leaves link j to its peer. */
  ghost predicate Leaves(t: Topology, c: Cluster, e: Event, p: PodName, j: nat)
    requires Shape(t, c) && p in t && j < |t[p]|
  {
    e.pod == p && j !in c.procs[p].outcomes && LeftIt(Step(t, c, e), p, j)
  }

  lemma LeavesUnskipped(t: Topology, c: Cluster, e: Event, p: PodName, j: nat)
    requires Shape(t, c) && p in t && j < |t[p]| && Leaves(t, c, e, p, j)
    ensures !SkippedBy(c, t[p][j].peer, p, t[p][j].uid) && OnAir(c.procs[p].phase)
  {
    StepSettles(t, c, e);
  }

  /** At the moment the lower pod leaves the link, the higher one has seen it dead
      exactly if its Skip for the link is under way and not committed. */
  lemma LeavesInTheWindow(t: Topology, c: Cluster, e: Event, hi: PodName, lo: PodName, i: nat, j: nat)
    requires Reachable(t, c) && Ends(t, hi, lo, i, j) && Started(c.procs[hi].phase) && Leaves(t, c, e, lo, j)
    ensures SawItDead(c, hi, i) <==> c.procs[hi].phase == Skipping(i)
  {
    LeavesUnskipped(t, c, e, lo, j);
    SkippingSawDead(t, c, hi, i);
    if SawItDead(c, hi, i) && c.procs[hi].phase != Skipping(i) {
      DeadIsListed(t, c, hi, i);
    }
  }

  lemma SkippingSawDead(t: Topology, c: Cluster, p: PodName, i: nat)
    requires Reachable(t, c) && p in t && i < |t[p]|
    ensures c.procs[p].phase == Skipping(i) ==> SawItDead(c, p, i)
    ensures c.procs[p].phase.Publishing? ==> !SawItDead(c, p, i)
  {
    ReachableOutcomeInv(t, c);
    assert OutcomesComplete(t, c, p);
  }

  /** Both pods stay in, or done with, the ADDs they are in. */
  ghost predicate BothStay(t: Topology, c: Cluster, es: seq<Event>, hi: PodName, lo: PodName)
    requires Shape(t, c) && hi in t && lo in t
  {
    var d := Exec(t, c, es);
    && Started(d.procs[hi].phase) && OnAir(d.procs[lo].phase)
    && (es != [] ==> BothStay(t, c, es[..|es| - 1], hi, lo))
  }

  lemma OnAirIsAlive(t: Topology, c: Cluster, p: PodName)
    requires Inv(t, c) && p in t && OnAir(c.procs[p].phase)
    ensures Alive(c.store[p].status)
  {
    assert PodInv(t, c, p);
  }

  lemma SeesDeadOnlyDead(t: Topology, c: Cluster, e: Event, hi: PodName, i: nat)
    requires Shape(t, c) && hi in t && i < |t[hi]| && Alive(c.store[t[hi][i].peer].status)
    requires SawItDead(Step(t, c, e), hi, i)
    ensures SawItDead(c, hi, i)
  {
    if e.pod == hi && !SawItDead(c, hi, i) { OnlyLookUpSeesDead(t, c, e, i); }
  }

  /** While both stay, what the higher pod saw and what the lower one left is settled. */
  lemma {:induction false} StaysDecided(t: Topology, c: Cluster, es: seq<Event>, hi: PodName, lo: PodName, i: nat, j: nat)
    requires OutcomeInv(t, c) && Ends(t, hi, lo, i, j) && BothStay(t, c, es, hi, lo)
    ensures SawItDead(Exec(t, c, es), hi, i) <==> SawItDead(c, hi, i)
    ensures LeftIt(c, lo, j) ==> LeftIt(Exec(t, c, es), lo, j)
  {
    hide EffectOf, WellFormed;
    if es != [] {
      var front, e := es[..|es| - 1], es[|es| - 1];
      StaysDecided(t, c, front, hi, lo, i, j);
      ExecKeepsOutcomeInv(t, c, front);
      var d := Exec(t, c, front);
      OnAirIsAlive(t, d, lo);
      if SawItDead(Step(t, d, e), hi, i) { SeesDeadOnlyDead(t, d, e, hi, i); }
      assert OutcomesComplete(t, d, hi) && OutcomesComplete(t, d, lo);
      if i in d.procs[hi].outcomes { OutcomeKept(t, d, e, hi, i); }
      if j in d.procs[lo].outcomes { OutcomeKept(t, d, e, lo, j); }
    }
  }

  /** The lower pod leaves the link to the higher one, and both stay until they are up.
      Then the link was made by neither if and only if the lower pod left it while the
      higher one's Skip for it was under way: it had been found dead before it was
      published, and its entry was not committed yet. */
  lemma UnmadeIffLeftInTheWindow(t: Topology, c: Cluster, e: Event, es: seq<Event>, hi: PodName, lo: PodName, i: nat, j: nat)
    requires Reachable(t, c) && Ends(t, hi, lo, i, j) && Started(c.procs[hi].phase) && Leaves(t, c, e, lo, j)
    requires BothStay(t, Step(t, c, e), es, hi, lo)
    requires var d := Exec(t, Step(t, c, e), es); d.procs[hi].phase == Up && d.procs[lo].phase == Up
    ensures var d := Exec(t, Step(t, c, e), es);
      !MadeIt(d, hi, i) && !MadeIt(d, lo, j) <==> c.procs[hi].phase == Skipping(i)
  {
    var c1 := Step(t, c, e);
    LeavesInTheWindow(t, c, e, hi, lo, i, j);
    PriorityIsStrict(hi, lo);
    assert c1.procs[hi] == c.procs[hi];
    Extend(t, c, e);
    ReachableOutcomeInv(t, c1);
    StaysDecided(t, c1, es, hi, lo, i, j);
    ReachableExec(t, c1, es);
    BothUpUnmadeLink(t, Exec(t, c1, es), hi, lo, i, j);
  }
}
