/** The promises of the link-initiation protocol, over all runs. */
module LinkTheorems {
  import opened Options
  import opened PodNames
  import opened TopologyStore
  import opened LinkProtocol
  import opened LinkInvariants
  import opened LinkOutcomes
  import opened LinkOrigins

  // ------------------------------------------------------------ skip lists

  /** A pod that is up lists every link that the last DEL of its peer, which is down,
      got past, or that its peer never came up for. */
  lemma DownPeerIsListed(t: Topology, c: Cluster, b: PodName, j: nat)
    requires Reachable(t, c) && b in t && j < |t[b]| && c.procs[b].phase == Up
    requires c.procs[t[b][j].peer].phase == Down && GotPast(t, c, t[b][j].peer, b, t[b][j].uid)
    ensures SkippedBy(c, b, t[b][j].peer, t[b][j].uid)
  {
    DownPeerIsListedIff(t, c, b, j);
  }

  lemma HeadIsMember(list: seq<Skipped>)
    ensures list != [] ==> list[0] in list
  {
  }

  /** A DEL that ran to its end leaves the pod with an empty skip list, and it
      stays empty until the pod is published again. */
  lemma CompleteDelEmptiesList(t: Topology, c: Cluster, p: PodName)
    requires Reachable(t, c) && p in t && c.procs[p].stopped.None?
    requires c.procs[p].phase == Down || c.procs[p].phase.Publishing?
    ensures c.store[p].status.skipped == []
  {
    var list := c.store[p].status.skipped;
    HeadIsMember(list);
    ReachableInv(t, c);
    assert PodInv(t, c, p);
  }

  // --------------------------------------------------------- re-initiation

  /** Pod a may make the link at once: its peer lists it, or its name is greater. */
  ghost predicate MayInitiate(t: Topology, c: Cluster, a: PodName, j: nat)
    requires Shape(t, c) && a in t && j < |t[a]|
  {
    SkippedBy(c, t[a][j].peer, a, t[a][j].uid) || Greater(a, t[a][j].peer)
  }

  /** Pod a is on its way to making link j. */
  ghost predicate OnTrack(t: Topology, c: Cluster, a: PodName, j: nat)
    requires Shape(t, c) && a in t && j < |t[a]|
  {
    var pr := c.procs[a];
    && MayInitiate(t, c, a, j)
    && (forall k :: pr.phase != Polling(j, k))
    && (j in pr.outcomes ==> Made(pr.outcomes[j]))
  }

  /** The entries of a pod's list go away only by its own DEL. */
  lemma EntryStays(t: Topology, c: Cluster, e: Event, b: PodName, x: Skipped)
    requires Shape(t, c) && b in t && !c.procs[b].phase.Forgetting?
    requires e.pod in t ==> PodInv(t, c, e.pod)
    requires x in c.store[b].status.skipped
    ensures x in Step(t, c, e).store[b].status.skipped
  {
    if e.pod in t && EffectOf(t, c, e).written.Some? {
      WritingIsCommitting(t, c, e);
      CommitKeepsEntry(t, c, e.pod, b, x);
    }
  }

  lemma WritingIsCommitting(t: Topology, c: Cluster, e: Event)
    requires Shape(t, c) && e.pod in t && PodInv(t, c, e.pod) && EffectOf(t, c, e).written.Some?
    ensures e == TryUpdate(e.pod) && Committing(t, c, e.pod) && Step(t, c, e) == Committed(t, c, e.pod)
  {
    UpdateIsCommit(t, c, e.pod);
  }

  lemma CommitKeepsEntry(t: Topology, c: Cluster, p: PodName, b: PodName, x: Skipped)
    requires Shape(t, c) && p in t && b in t && !c.procs[b].phase.Forgetting? && Writing(c.procs[p].phase)
    requires x in c.store[b].status.skipped
    ensures b in Committed(t, c, p).store && x in Committed(t, c, p).store[b].status.skipped
  {
  }

  /** Nobody but a, in its DEL, adds an entry for a to the list of a pod that is up. */
  lemma EntryStaysAway(t: Topology, c: Cluster, e: Event, b: PodName, x: Skipped)
    requires Shape(t, c) && b in t && c.procs[b].phase == Up && x.podName in t && !c.procs[x.podName].phase.Informing?
    requires e.pod in t ==> PodInv(t, c, e.pod)
    requires x !in c.store[b].status.skipped
    ensures x !in Step(t, c, e).store[b].status.skipped
  {
    if e.pod in t && EffectOf(t, c, e).written.Some? {
      WritingIsCommitting(t, c, e);
      CommitAddsNoEntry(t, c, e.pod, b, x);
    }
  }

  lemma CommitAddsNoEntry(t: Topology, c: Cluster, p: PodName, b: PodName, x: Skipped)
    requires Shape(t, c) && p in t && b in t && c.procs[b].phase == Up && x.podName in t && !c.procs[x.podName].phase.Informing?
    requires Writing(c.procs[p].phase) && x !in c.store[b].status.skipped
    ensures b in Committed(t, c, p).store && x !in Committed(t, c, p).store[b].status.skipped
  {
  }

  lemma OwnStepStaysOnTrack(t: Topology, c: Cluster, e: Event, j: nat)
    requires Shape(t, c) && e.pod in t && j < |t[e.pod]| && OnTrack(t, c, e.pod, j)
    requires Alive(c.store[t[e.pod][j].peer].status)
    ensures var pr := Step(t, c, e).procs[e.pod]; j in pr.outcomes ==> Made(pr.outcomes[j])
  {
    StepSettles(t, c, e);
  }

  /** A pod that may initiate does not wait for its peer. */
  lemma NeverPolls(t: Topology, c: Cluster, e: Event, j: nat)
    requires Shape(t, c) && e.pod in t && j < |t[e.pod]| && MayInitiate(t, c, e.pod, j)
    requires forall k :: c.procs[e.pod].phase != Polling(j, k)
    ensures forall k :: Step(t, c, e).procs[e.pod].phase != Polling(j, k)
  {
    hide WellFormed;
    EffectInRange(t, c, e);
  }

  lemma StaysAllowed(t: Topology, c: Cluster, e: Event, a: PodName, j: nat)
    requires Shape(t, c) && a in t && j < |t[a]| && MayInitiate(t, c, a, j)
    requires c.procs[t[a][j].peer].phase == Up && (e.pod in t ==> PodInv(t, c, e.pod))
    ensures MayInitiate(t, Step(t, c, e), a, j)
  {
    if SkippedBy(c, t[a][j].peer, a, t[a][j].uid) {
      EntryStays(t, c, e, t[a][j].peer, Skipped(a, t[a][j].uid));
    }
  }

  lemma StaysOnTrack(t: Topology, c: Cluster, e: Event, a: PodName, j: nat)
    requires Shape(t, c) && a in t && j < |t[a]| && OnTrack(t, c, a, j)
    requires c.procs[t[a][j].peer].phase == Up && Alive(c.store[t[a][j].peer].status)
    requires e.pod in t ==> PodInv(t, c, e.pod)
    ensures OnTrack(t, Step(t, c, e), a, j)
  {
    StaysAllowed(t, c, e, a, j);
    if e.pod == a {
      OwnStepStaysOnTrack(t, c, e, j);
      NeverPolls(t, c, e, j);
    }
  }

  /** Throughout the run b is up and a is in, or done with, the ADD it was in. */
  ghost predicate Undisturbed(t: Topology, c: Cluster, es: seq<Event>, a: PodName, b: PodName)
    requires Shape(t, c) && a in t && b in t
  {
    var d := Exec(t, c, es);
    && d.procs[b].phase == Up && Started(d.procs[a].phase)
    && (es != [] ==> Undisturbed(t, c, es[..|es| - 1], a, b))
  }

  lemma UpIsAlive(t: Topology, c: Cluster, b: PodName)
    requires Inv(t, c) && b in t && c.procs[b].phase == Up
    ensures Alive(c.store[b].status)
  {
    assert PodInv(t, c, b);
  }

  lemma {:induction false} KeepsOnTrack(t: Topology, c: Cluster, es: seq<Event>, a: PodName, j: nat)
    requires Inv(t, c) && a in t && j < |t[a]| && OnTrack(t, c, a, j) && Undisturbed(t, c, es, a, t[a][j].peer)
    ensures OnTrack(t, Exec(t, c, es), a, j)
  {
    if es != [] {
      var front, e := es[..|es| - 1], es[|es| - 1];
      KeepsOnTrack(t, c, front, a, j);
      ExecKeepsInv(t, c, front);
      var d := Exec(t, c, front);
      UpIsAlive(t, d, t[a][j].peer);
      assert e.pod in t ==> PodInv(t, d, e.pod);
      StaysOnTrack(t, d, e, a, j);
    }
  }

  /** Whatever happened before: if a begins its ADD while b is up, and b stays up, then
      a makes their link or finds it made, if its name is greater, or b lists it, or
      its last DEL got past the link; and when a is up, it has done so. */
  lemma LaterAddMakesTheLinks(t: Topology, c: Cluster, a: PodName, life: Life, es: seq<Event>, j: nat)
    requires Reachable(t, c) && a in t && j < |t[a]| && Proper(life)
    requires c.procs[t[a][j].peer].phase == Up && c.procs[a].phase == Down
    requires MayInitiate(t, c, a, j) || GotPast(t, c, a, t[a][j].peer, t[a][j].uid)
    requires Undisturbed(t, Step(t, c, BeginAdd(a, life)), es, a, t[a][j].peer)
    ensures var d := Exec(t, Step(t, c, BeginAdd(a, life)), es);
      && (j in d.procs[a].outcomes ==> Made(d.procs[a].outcomes[j]))
      && (d.procs[a].phase == Up ==> j in d.procs[a].outcomes)
  {
    var b, c1 := t[a][j].peer, Step(t, c, BeginAdd(a, life));
    assert Mirrored(t, a, j);
    var k :| 0 <= k < |t[b]| && t[b][k] == Link(a, t[a][j].uid);
    DownPeerIsListedIff(t, c, b, k);
    Extend(t, c, BeginAdd(a, life));
    ReachableOutcomeInv(t, c1);
    KeepsOnTrack(t, c1, es, a, j);
    ExecKeepsOutcomeInv(t, c1, es);
    if Exec(t, c1, es).procs[a].phase == Up {
      UpIsSettled(t, Exec(t, c1, es), a, j);
    }
  }

  lemma UpIsSettled(t: Topology, c: Cluster, p: PodName, j: nat)
    requires OutcomeInv(t, c) && p in t && j < |t[p]| && c.procs[p].phase == Up
    ensures j in c.procs[p].outcomes
    ensures c.procs[p].outcomes[j] in {Deferred, GaveUp} ==> !Greater(p, t[p][j].peer)
  {
    assert OutcomesComplete(t, c, p) && OnlyLowerWaits(t, c, p);
  }

  // ------------------------------------------------------- links left alone

  /** With this event a comes upon something of link j: one of its interfaces, or the
      wire it waits for. */
  predicate Finds(t: Topology, c: Cluster, e: Event, a: PodName, j: nat)
    requires Shape(t, c) && a in t && j < |t[a]|
  {
    var ph := c.procs[a].phase;
    && e.pod == a && EverMade(t, c, a, j)
    && ((e.Decide? && ph == Deciding(j, true) && (e.mine || e.theirs)) || (e.Poll? && ph.Polling? && ph.at == j && e.present))
  }

  ghost predicate FoundIn(t: Topology, c: Cluster, es: seq<Event>, a: PodName, j: nat)
    requires Shape(t, c) && a in t && j < |t[a]|
  {
    es != [] && (FoundIn(t, c, es[..|es| - 1], a, j) || Finds(t, Exec(t, c, es[..|es| - 1]), es[|es| - 1], a, j))
  }

  predicate MadeIt(c: Cluster, p: PodName, j: nat)
    requires p in c.procs
  {
    j in c.procs[p].outcomes && Made(c.procs[p].outcomes[j])
  }

  /** Pod a may not make link j, and has it only if it found it. */
  ghost predicate OffTrack(t: Topology, c: Cluster, a: PodName, j: nat, found: bool)
    requires Shape(t, c) && a in t && j < |t[a]|
  {
    && !MayInitiate(t, c, a, j) && (MadeIt(c, a, j) <==> found) && !InitiatedIn(c, a, j)
    && (found ==> EverMade(t, c, a, j))
  }

  /** What one step of the pod itself does to a link that it may not make. */
  ghost predicate MadeByFinding(t: Topology, c: Cluster, e: Event, pr: Proc, j: nat)
    requires Shape(t, c) && e.pod in t && j < |t[e.pod]|
  {
    if Finds(t, c, e, e.pod, j) then j in pr.outcomes && pr.outcomes[j] in {Present, Repaired}
    else j in pr.outcomes && (Made(pr.outcomes[j]) || MadeIt(c, e.pod, j)) ==>
      j in c.procs[e.pod].outcomes && pr.outcomes[j] == c.procs[e.pod].outcomes[j]
  }

  lemma DecidesByFinding(t: Topology, c: Cluster, e: Event, j: nat)
    requires Shape(t, c) && e.pod in t && j < |t[e.pod]| && e.Decide? && c.procs[e.pod].phase.Deciding?
    requires !MayInitiate(t, c, e.pod, j) && OutcomesComplete(t, c, e.pod)
    ensures MadeByFinding(t, c, e, DecideEffect(t, c, e.pod, e.mine, e.theirs), j)
  {
  }

  lemma PollsByFinding(t: Topology, c: Cluster, e: Event, j: nat)
    requires Shape(t, c) && e.pod in t && j < |t[e.pod]| && e.Poll? && c.procs[e.pod].phase.Polling?
    requires !MayInitiate(t, c, e.pod, j) && OutcomesComplete(t, c, e.pod)
    ensures MadeByFinding(t, c, e, PollEffect(t, c, e.pod, e.present, e.late), j)
  {
  }

  lemma OthersFindNothing(t: Topology, c: Cluster, e: Event, j: nat)
    requires Shape(t, c) && e.pod in t && j < |t[e.pod]| && Started(c.procs[e.pod].phase) && OutcomesComplete(t, c, e.pod)
    requires !(e.Decide? && c.procs[e.pod].phase.Deciding?) && !(e.Poll? && c.procs[e.pod].phase.Polling?)
    ensures MadeByFinding(t, c, e, EffectOf(t, c, e).proc, j)
  {
  }

  lemma OwnStepFinds(t: Topology, c: Cluster, e: Event, j: nat)
    requires Shape(t, c) && e.pod in t && j < |t[e.pod]| && Started(c.procs[e.pod].phase) && OutcomesComplete(t, c, e.pod)
    requires !MayInitiate(t, c, e.pod, j)
    ensures MadeByFinding(t, c, e, Step(t, c, e).procs[e.pod], j)
  {
    hide MadeByFinding, MayInitiate, OutcomesComplete;
    if e.Decide? && c.procs[e.pod].phase.Deciding? {
      DecidesByFinding(t, c, e, j);
    } else if e.Poll? && c.procs[e.pod].phase.Polling? {
      PollsByFinding(t, c, e, j);
    } else {
      OthersFindNothing(t, c, e, j);
    }
  }

  lemma BuildingGrows(t: Topology, c: Cluster, e: Event)
    requires Shape(t, c) && e.pod in t
    ensures e.Decide? && c.procs[e.pod].phase.Deciding? ==> c.procs[e.pod].built <= DecideEffect(t, c, e.pod, e.mine, e.theirs).built
    ensures e.Poll? && c.procs[e.pod].phase.Polling? ==> c.procs[e.pod].built <= PollEffect(t, c, e.pod, e.present, e.late).built
  {
    hide WellFormed, EverMade;
  }

  lemma BuiltGrows(t: Topology, c: Cluster, e: Event, p: PodName)
    requires Shape(t, c) && p in t
    ensures c.procs[p].built <= Step(t, c, e).procs[p].built
  {
    hide WellFormed, EverMade, DecideEffect, PollEffect;
    BuildingIsDeciding(t, c, e);
    if e.pod == p { BuildingGrows(t, c, e); }
  }

  lemma EverMadeStays(t: Topology, c: Cluster, e: Event, p: PodName, j: nat)
    requires Shape(t, c) && p in t && j < |t[p]| && EverMade(t, c, p, j)
    ensures EverMade(t, Step(t, c, e), p, j)
  {
    BuiltGrows(t, c, e, p);
    BuiltGrows(t, c, e, t[p][j].peer);
  }

  lemma StaysForbidden(t: Topology, c: Cluster, e: Event, a: PodName, j: nat)
    requires Shape(t, c) && a in t && j < |t[a]| && !MayInitiate(t, c, a, j)
    requires c.procs[t[a][j].peer].phase == Up && !c.procs[a].phase.Informing? && (e.pod in t ==> PodInv(t, c, e.pod))
    ensures !MayInitiate(t, Step(t, c, e), a, j)
  {
    hide EffectOf;
    EntryStaysAway(t, c, e, t[a][j].peer, Skipped(a, t[a][j].uid));
  }

  lemma OwnStepStaysOffTrack(t: Topology, c: Cluster, e: Event, j: nat, found: bool)
    requires Shape(t, c) && e.pod in t && j < |t[e.pod]| && OffTrack(t, c, e.pod, j, found)
    requires Started(c.procs[e.pod].phase) && OutcomesComplete(t, c, e.pod)
    ensures (MadeIt(Step(t, c, e), e.pod, j) <==> found || Finds(t, c, e, e.pod, j)) && !InitiatedIn(Step(t, c, e), e.pod, j)
  {
    hide EffectOf, WellFormed;
    OwnStepFinds(t, c, e, j);
    if j in c.procs[e.pod].outcomes { OutcomeKept(t, c, e, e.pod, j); }
  }

  lemma StaysOffTrack(t: Topology, c: Cluster, e: Event, a: PodName, j: nat, found: bool)
    requires Shape(t, c) && a in t && j < |t[a]| && OffTrack(t, c, a, j, found)
    requires c.procs[t[a][j].peer].phase == Up && Started(c.procs[a].phase) && OutcomesComplete(t, c, a)
    requires e.pod in t ==> PodInv(t, c, e.pod)
    ensures OffTrack(t, Step(t, c, e), a, j, found || Finds(t, c, e, a, j))
  {
    hide EffectOf, MayInitiate, EverMade, PodInv, OutcomesComplete;
    StaysForbidden(t, c, e, a, j);
    if EverMade(t, c, a, j) { EverMadeStays(t, c, e, a, j); }
    if e.pod == a { OwnStepStaysOffTrack(t, c, e, j, found); }
  }

  lemma {:induction false} KeepsOffTrack(t: Topology, c: Cluster, es: seq<Event>, a: PodName, j: nat)
    requires OutcomeInv(t, c) && a in t && j < |t[a]| && OffTrack(t, c, a, j, false) && Undisturbed(t, c, es, a, t[a][j].peer)
    ensures OffTrack(t, Exec(t, c, es), a, j, FoundIn(t, c, es, a, j))
  {
    if es != [] {
      var front, e := es[..|es| - 1], es[|es| - 1];
      KeepsOffTrack(t, c, front, a, j);
      ExecKeepsOutcomeInv(t, c, front);
      var d := Exec(t, c, front);
      assert OutcomesComplete(t, d, a) && (e.pod in t ==> PodInv(t, d, e.pod));
      StaysOffTrack(t, d, e, a, j, FoundIn(t, c, front, a, j));
    }
  }

  /** A lower pod that its peer does not list has the link after its ADD exactly if it
      came upon something of it, however often it polls: it never initiates the link,
      but it takes a wire that is still there, and on a shared node it repairs a link
      of which one interface is still there. What it finds was made before. */
  lemma LaterAddLeavesTheLink(t: Topology, c: Cluster, a: PodName, life: Life, es: seq<Event>, j: nat)
    requires Reachable(t, c) && a in t && j < |t[a]| && Proper(life)
    requires c.procs[t[a][j].peer].phase == Up && c.procs[a].phase == Down && !MayInitiate(t, c, a, j)
    requires Undisturbed(t, Step(t, c, BeginAdd(a, life)), es, a, t[a][j].peer)
    ensures var c1 := Step(t, c, BeginAdd(a, life));
      var d := Exec(t, c1, es);
      && !SkippedBy(d, t[a][j].peer, a, t[a][j].uid) && !InitiatedIn(d, a, j)
      && (MadeIt(d, a, j) <==> FoundIn(t, c1, es, a, j))
      && (FoundIn(t, c1, es, a, j) ==> EverMade(t, d, a, j))
  {
    var c1 := Step(t, c, BeginAdd(a, life));
    Extend(t, c, BeginAdd(a, life));
    ReachableOutcomeInv(t, c1);
    KeepsOffTrack(t, c1, es, a, j);
  }

  /** So an ADD that is through with link j, while the peer was up, has it if and only if
      the pod was allowed to make it when the ADD began, or found something of it. */
  lemma LaterAddMakesIff(t: Topology, c: Cluster, a: PodName, life: Life, es: seq<Event>, j: nat)
    requires Reachable(t, c) && a in t && j < |t[a]| && Proper(life)
    requires c.procs[t[a][j].peer].phase == Up && c.procs[a].phase == Down
    requires Undisturbed(t, Step(t, c, BeginAdd(a, life)), es, a, t[a][j].peer)
    ensures var c1 := Step(t, c, BeginAdd(a, life));
      var d := Exec(t, c1, es);
      && (j in d.procs[a].outcomes ==> (MadeIt(d, a, j) <==> MayInitiate(t, c, a, j) || FoundIn(t, c1, es, a, j)))
      && (d.procs[a].phase == Up ==> j in d.procs[a].outcomes)
  {
    var c1 := Step(t, c, BeginAdd(a, life));
    if MayInitiate(t, c, a, j) {
      LaterAddMakesTheLinks(t, c, a, life, es, j);
    } else {
      LaterAddLeavesTheLink(t, c, a, life, es, j);
      Extend(t, c, BeginAdd(a, life));
      ReachableOutcomeInv(t, c1);
      ExecKeepsOutcomeInv(t, c1, es);
      if Exec(t, c1, es).procs[a].phase == Up { UpIsSettled(t, Exec(t, c1, es), a, j); }
    }
  }

  /** Nothing of a's links is left where a looks for it. */
  predicate NothingLeft(es: seq<Event>, a: PodName) {
    forall e :: e in es && e.pod == a ==> (e.Decide? ==> !e.mine && !e.theirs) && (e.Poll? ==> !e.present)
  }

  lemma {:induction false} NothingToFind(t: Topology, c: Cluster, es: seq<Event>, a: PodName, j: nat)
    requires Shape(t, c) && a in t && j < |t[a]| && NothingLeft(es, a)
    ensures !FoundIn(t, c, es, a, j)
  {
    hide Shape, EverMade;
    if es != [] {
      assert es[|es| - 1] in es && forall e :: e in es[..|es| - 1] ==> e in es;
      NothingToFind(t, c, es[..|es| - 1], a, j);
    }
  }

  /** Where nothing is left of the link, what holds when the ADD begins decides: the pod
      has the priority, or its peer lists it, or it ends up without the link. */
  lemma CleanAddMakesIff(t: Topology, c: Cluster, a: PodName, life: Life, es: seq<Event>, j: nat)
    requires Reachable(t, c) && a in t && j < |t[a]| && Proper(life)
    requires c.procs[t[a][j].peer].phase == Up && c.procs[a].phase == Down && NothingLeft(es, a)
    requires Undisturbed(t, Step(t, c, BeginAdd(a, life)), es, a, t[a][j].peer)
    requires Exec(t, Step(t, c, BeginAdd(a, life)), es).procs[a].phase == Up
    ensures MadeIt(Exec(t, Step(t, c, BeginAdd(a, life)), es), a, j) <==> MayInitiate(t, c, a, j)
  {
    hide MayInitiate, MadeIt, FoundIn, Follows, EffectOf;
    LaterAddMakesIff(t, c, a, life, es, j);
    NothingToFind(t, Step(t, c, BeginAdd(a, life)), es, a, j);
  }

  /** Throughout the run b is up and a is in no DEL: it is away, or its ADDs fail. */
  ghost predicate NoDelOf(t: Topology, c: Cluster, es: seq<Event>, a: PodName, b: PodName)
    requires Shape(t, c) && a in t && b in t
  {
    var d := Exec(t, c, es);
    && d.procs[b].phase == Up && !Deleting(d.procs[a].phase)
    && (es != [] ==> NoDelOf(t, c, es[..|es| - 1], a, b))
  }

  /** Until its next DEL nothing changes whether a may make the link. */
  lemma {:induction false} PermissionStays(t: Topology, c: Cluster, es: seq<Event>, a: PodName, j: nat)
    requires Inv(t, c) && a in t && j < |t[a]| && NoDelOf(t, c, es, a, t[a][j].peer)
    ensures MayInitiate(t, Exec(t, c, es), a, j) <==> MayInitiate(t, c, a, j)
  {
    if es != [] {
      var front, e := es[..|es| - 1], es[|es| - 1];
      PermissionStays(t, c, front, a, j);
      ExecKeepsInv(t, c, front);
      var d := Exec(t, c, front);
      assert e.pod in t ==> PodInv(t, d, e.pod);
      if MayInitiate(t, d, a, j) { StaysAllowed(t, d, e, a, j); } else { StaysForbidden(t, d, e, a, j); }
    }
  }

  // ------------------------------------------------------ how a link is settled

  /** All of link j that this event looks for is there: on a shared node both interfaces,
      otherwise this end's wire. */
  predicate FindsWhole(t: Topology, c: Cluster, e: Event, a: PodName, j: nat)
    requires Shape(t, c) && a in t && j < |t[a]|
  {
    EverMade(t, c, a, j) && match c.procs[a].phase
    case Deciding(_, sameNode) => e.Decide? && e.mine && (sameNode ==> e.theirs)
    case Polling(_, _) => e.Poll? && (e.present || (SkippedBy(c, t[a][j].peer, a, t[a][j].uid) && e.late))
    case _ => false
  }

  /** One interface of a link on a shared node is there, and the other is not. */
  predicate FindsHalf(t: Topology, c: Cluster, e: Event, a: PodName, j: nat)
    requires Shape(t, c) && a in t && j < |t[a]|
  {
    EverMade(t, c, a, j) && c.procs[a].phase == Deciding(j, true) && e.Decide? && e.mine != e.theirs
  }

  /** With this event a is done with link j, whose peer it found alive. */
  predicate Concludes(t: Topology, c: Cluster, e: Event, a: PodName, j: nat)
    requires Shape(t, c) && a in t && j < |t[a]|
  {
    && e.pod == a && ((e.Decide? && c.procs[a].phase.Deciding?) || (e.Poll? && c.procs[a].phase.Polling?))
    && c.procs[a].phase.at == j && Step(t, c, e).procs[a].phase == AfterLink(t, a, j + 1)
  }

  /** A link that is found whole is left alone; one of which a half is found is made anew;
      and where nothing is found, it is made if the pod may make it, and otherwise left
      to the peer. The pod has built just what it made. */
  lemma ConcludesBy(t: Topology, c: Cluster, e: Event, j: nat)
    requires OutcomeInv(t, c) && e.pod in t && j < |t[e.pod]| && Concludes(t, c, e, e.pod, j)
    ensures var a := e.pod;
      var pr := Step(t, c, e).procs[a];
      && j in pr.outcomes
      && (pr.outcomes[j] == Present <==> FindsWhole(t, c, e, a, j))
      && (pr.outcomes[j] == Repaired <==> FindsHalf(t, c, e, a, j))
      && (pr.outcomes[j] == Initiated <==> !FindsWhole(t, c, e, a, j) && !FindsHalf(t, c, e, a, j) && MayInitiate(t, c, a, j))
      && pr.built == (if pr.outcomes[j] in {Initiated, Repaired} then c.procs[a].built + {t[a][j]} else c.procs[a].built)
  {
    assert OnlyLowerWaits(t, c, e.pod);
    hide OutcomeInv;
    if e.Decide? { DecisionConcludesBy(t, c, e, j); } else { PollConcludesBy(t, c, e, j); }
  }

  lemma DecisionConcludesBy(t: Topology, c: Cluster, e: Event, j: nat)
    requires Shape(t, c) && e.pod in t && j < |t[e.pod]| && e.Decide? && c.procs[e.pod].phase.Deciding?
    requires c.procs[e.pod].phase.at == j && DecideEffect(t, c, e.pod, e.mine, e.theirs).phase == AfterLink(t, e.pod, j + 1)
    ensures var a := e.pod;
      var pr := DecideEffect(t, c, a, e.mine, e.theirs);
      && j in pr.outcomes
      && (pr.outcomes[j] == Present <==> FindsWhole(t, c, e, a, j))
      && (pr.outcomes[j] == Repaired <==> FindsHalf(t, c, e, a, j))
      && (pr.outcomes[j] == Initiated <==> !FindsWhole(t, c, e, a, j) && !FindsHalf(t, c, e, a, j) && MayInitiate(t, c, a, j))
      && pr.built == (if pr.outcomes[j] in {Initiated, Repaired} then c.procs[a].built + {t[a][j]} else c.procs[a].built)
  {
    hide EverMade, WellFormed;
  }

  lemma PollConcludesBy(t: Topology, c: Cluster, e: Event, j: nat)
    requires Shape(t, c) && e.pod in t && j < |t[e.pod]| && e.Poll? && c.procs[e.pod].phase.Polling? && OnlyLowerWaits(t, c, e.pod)
    requires c.procs[e.pod].phase.at == j && PollEffect(t, c, e.pod, e.present, e.late).phase == AfterLink(t, e.pod, j + 1)
    ensures var a := e.pod;
      var pr := PollEffect(t, c, a, e.present, e.late);
      && j in pr.outcomes
      && (pr.outcomes[j] == Present <==> FindsWhole(t, c, e, a, j))
      && pr.outcomes[j] != Repaired && !FindsHalf(t, c, e, a, j)
      && (pr.outcomes[j] == Initiated <==> !FindsWhole(t, c, e, a, j) && MayInitiate(t, c, a, j))
      && pr.built == (if pr.outcomes[j] == Initiated then c.procs[a].built + {t[a][j]} else c.procs[a].built)
  {
    hide EverMade, WellFormed;
  }

  // ------------------------------------------------------- who made a link

  /** A link counts as made only once one of its ends has initiated it: everything that
      is found present or repaired later goes back to that. */
  lemma FirstMadeByInitiating(t: Topology, c: Cluster, e: Event, p: PodName, j: nat) returns (q: PodName, k: nat)
    requires Shape(t, c) && p in t && j < |t[p]| && !EverMade(t, c, p, j) && EverMade(t, Step(t, c, e), p, j)
    ensures e.pod == q && q in t && k < |t[q]| && InitiatedIn(Step(t, c, e), q, k)
    ensures (q == p && k == j) || (q == t[p][j].peer && t[q][k] == Link(p, t[p][j].uid))
  {
    var l := t[p][j];
    if l in Step(t, c, e).procs[p].built {
      q, k := p, j;
    } else {
      q := l.peer;
      assert Mirrored(t, p, j);
      k :| 0 <= k < |t[q]| && t[q][k] == Link(p, l.uid);
    }
    BuiltByInitiating(t, c, e, q, k);
  }

  predicate InitiatedIn(c: Cluster, p: PodName, k: nat)
    requires p in c.procs
  {
    k in c.procs[p].outcomes && c.procs[p].outcomes[k] == Initiated
  }

  lemma BuiltByInitiating(t: Topology, c: Cluster, e: Event, q: PodName, k: nat)
    requires Shape(t, c) && q in t && k < |t[q]| && !EverMade(t, c, q, k) && t[q][k] in Step(t, c, e).procs[q].built
    ensures e.pod == q && InitiatedIn(Step(t, c, e), q, k)
  {
    BuildingIsDeciding(t, c, e);
    if e.Decide? { DecidingInitiates(t, c, q, e.mine, e.theirs, k); } else { PollingInitiates(t, c, q, e.present, e.late, k); }
  }

  lemma BuildingIsDeciding(t: Topology, c: Cluster, e: Event)
    requires Shape(t, c)
    ensures Step(t, c, e) != c && e.pod in t && Step(t, c, e).procs[e.pod].built != c.procs[e.pod].built ==>
      (e.Decide? && c.procs[e.pod].phase.Deciding?) || (e.Poll? && c.procs[e.pod].phase.Polling?)
    ensures forall q :: q in t && q != e.pod ==> Step(t, c, e).procs[q] == c.procs[q]
  {
  }

  lemma DecidingInitiates(t: Topology, c: Cluster, q: PodName, mine: bool, theirs: bool, k: nat)
    requires Shape(t, c) && q in t && k < |t[q]| && !EverMade(t, c, q, k) && c.procs[q].phase.Deciding?
    requires t[q][k] in DecideEffect(t, c, q, mine, theirs).built
    ensures var pr := DecideEffect(t, c, q, mine, theirs); k in pr.outcomes && pr.outcomes[k] == Initiated
  {
    assert DistinctUids(t[q]);
  }

  lemma PollingInitiates(t: Topology, c: Cluster, q: PodName, present: bool, late: bool, k: nat)
    requires Shape(t, c) && q in t && k < |t[q]| && !EverMade(t, c, q, k) && c.procs[q].phase.Polling?
    requires t[q][k] in PollEffect(t, c, q, present, late).built
    ensures var pr := PollEffect(t, c, q, present, late); k in pr.outcomes && pr.outcomes[k] == Initiated
  {
    assert DistinctUids(t[q]);
  }

  ghost predicate MadeIsMade(t: Topology, c: Cluster, p: PodName)
    requires Shape(t, c) && p in t
  {
    forall j :: 0 <= j < |t[p]| && j in c.procs[p].outcomes && Made(c.procs[p].outcomes[j]) ==> EverMade(t, c, p, j)
  }

  lemma DecisionMakes(t: Topology, c: Cluster, p: PodName, mine: bool, theirs: bool, j: nat)
    requires Shape(t, c) && p in t && MadeIsMade(t, c, p) && j < |t[p]| && c.procs[p].phase.Deciding?
    requires var pr := DecideEffect(t, c, p, mine, theirs); j in pr.outcomes && Made(pr.outcomes[j])
    ensures EverMade(t, c, p, j) || t[p][j] in DecideEffect(t, c, p, mine, theirs).built
  {
  }

  lemma PollMakes(t: Topology, c: Cluster, p: PodName, present: bool, late: bool, j: nat)
    requires Shape(t, c) && p in t && MadeIsMade(t, c, p) && j < |t[p]| && c.procs[p].phase.Polling?
    requires var pr := PollEffect(t, c, p, present, late); j in pr.outcomes && Made(pr.outcomes[j])
    ensures EverMade(t, c, p, j) || t[p][j] in PollEffect(t, c, p, present, late).built
  {
  }

  lemma OwnStepMakes(t: Topology, c: Cluster, e: Event, j: nat)
    requires Shape(t, c) && e.pod in t && MadeIsMade(t, c, e.pod) && j < |t[e.pod]|
    requires j in Step(t, c, e).procs[e.pod].outcomes && Made(Step(t, c, e).procs[e.pod].outcomes[j])
    ensures EverMade(t, c, e.pod, j) || t[e.pod][j] in Step(t, c, e).procs[e.pod].built
  {
    if e.Decide? && c.procs[e.pod].phase.Deciding? {
      DecisionMakes(t, c, e.pod, e.mine, e.theirs, j);
    } else if e.Poll? && c.procs[e.pod].phase.Polling? {
      PollMakes(t, c, e.pod, e.present, e.late, j);
    }
  }

  lemma StepKeepsMade(t: Topology, c: Cluster, e: Event, p: PodName)
    requires Shape(t, c) && p in t && MadeIsMade(t, c, p)
    ensures MadeIsMade(t, Step(t, c, e), p)
  {
    var d := Step(t, c, e);
    forall j | 0 <= j < |t[p]| && j in d.procs[p].outcomes && Made(d.procs[p].outcomes[j]) ensures EverMade(t, d, p, j) {
      if e.pod == p { OwnStepMakes(t, c, e, j); }
      if EverMade(t, c, p, j) { EverMadeStays(t, c, e, p, j); }
    }
  }

  /** What a pod takes for made was made by one of the two ends: the deciding and polling
      steps see to that themselves, and no other step gets in between. */
  lemma {:induction false} PresentMeansMade(t: Topology, es: seq<Event>, p: PodName)
    requires WellFormed(t) && p in t
    ensures MadeIsMade(t, Exec(t, Init(t), es), p)
  {
    if es != [] {
      PresentMeansMade(t, es[..|es| - 1], p);
      StepKeepsMade(t, Exec(t, Init(t), es[..|es| - 1]), es[|es| - 1], p);
    }
  }
}
