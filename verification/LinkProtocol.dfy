/** The link-initiation protocol as a transition system. Every pod runs ADD and
    DEL one at a time; the pods interleave over the shared topology objects. One
    event is one read of an object, one attempted update, or one local move. */
module LinkProtocol {
  import opened Options
  import opened PodNames
  import opened TopologyStore

  datatype Link = Link(peer: PodName, uid: int)

  type Topology = map<PodName, seq<Link>>

  /** The peer of link i declares the same link in the other direction. */
  ghost predicate Mirrored(t: Topology, p: PodName, i: nat)
    requires p in t && i < |t[p]|
  {
    var l := t[p][i];
    l.peer in t && Link(p, l.uid) in t[l.peer]
  }

  ghost predicate DistinctUids(links: seq<Link>) {
    forall i, j :: 0 <= i < j < |links| ==> links[i].uid != links[j].uid
  }

  /** Both ends declare a link under the same uid, no pod links to itself, and a
      pod's links have different uids. */
  ghost predicate WellFormed(t: Topology) {
    && (forall p, i :: p in t && 0 <= i < |t[p]| ==> Mirrored(t, p, i))
    && (forall p, i :: p in t && 0 <= i < |t[p]| ==> t[p][i].peer in t && t[p][i].peer != p)
    && (forall p :: p in t ==> DistinctUids(t[p]))
  }

  /** What CNI hands to an ADD. */
  datatype Life = Life(srcIp: string, netNs: string, containerId: string)

  predicate Proper(l: Life) {
    l.srcIp != "" && l.netNs != "" && l.containerId != ""
  }

  /** Where a pod is in its ADD or DEL. */
  datatype Phase =
    | Down                                // no operation, not alive
    | Publishing(life: Life)              // ADD: SetAlive
    | Walking(at: nat)                    // ADD: about to read the peer of a link
    | Skipping(at: nat)                   // ADD: peer was dead, Skip under way
    | Deciding(at: nat, sameNode: bool)   // ADD: peer was alive, about to read its skip list
    | Polling(at: nat, polls: nat)        // ADD over gRPC: waiting for the peer
    | Up                                  // ADD complete
    | Broken                              // alive, but its ADD or DEL returned an error
    | Retiring                            // DEL: SetAlive with empty fields
    | Informing(at: nat)                  // DEL: first half of SkipReverse
    | Forgetting(at: nat)                 // DEL: second half of SkipReverse

  /** How a pod's last ADD left a link. */
  datatype Outcome = PeerDead | Initiated | Repaired | Present | Deferred | GaveUp

  predicate Made(o: Outcome) {
    o == Initiated || o == Repaired || o == Present
  }

  /** `read` is the object an update in progress was computed from. If the last DEL
      stopped after marking the pod dead, `stopped` is the first link it had not
      announced. `built` holds the links this pod has ever made. */
  datatype Proc = Proc(phase: Phase, read: Option<Object>, outcomes: map<nat, Outcome>, stopped: Option<nat>, built: set<Link>)

  datatype Commit = Commit(name: PodName, write: Write)

  datatype Cluster = Cluster(store: map<PodName, Object>, procs: map<PodName, Proc>, log: seq<Commit>)

  datatype Event =
    | BeginAdd(pod: PodName, life: Life)
    | Fetch(pod: PodName)
    | TryUpdate(pod: PodName)
    | LookUpPeer(pod: PodName)
    | Decide(pod: PodName, mine: bool, theirs: bool)  // which ends of the link exist, if it was ever made
    | Poll(pod: PodName, present: bool, late: bool)   // does the wire exist, before and after the skip check
    | FailAdd(pod: PodName)
    | BeginDel(pod: PodName, containerId: string)
    | FailDel(pod: PodName)

  /** The lower-priority end of a gRPC link polls this often before it gives up. */
  const RETRY_COUNT := 20

  ghost predicate Shape(t: Topology, c: Cluster) {
    && WellFormed(t)
    && c.store.Keys == t.Keys && c.procs.Keys == t.Keys
    && forall p :: p in t ==> InRange(c.procs[p].phase, |t[p]|)
  }

  predicate InRange(ph: Phase, n: nat) {
    match ph
    case Walking(i) => i < n
    case Skipping(i) => i < n
    case Deciding(i, _) => i < n
    case Polling(i, k) => i < n && k < RETRY_COUNT
    case Informing(i) => i < n
    case Forgetting(i) => i < n
    case _ => true
  }

  ghost function Init(t: Topology): (c: Cluster)
    requires WellFormed(t)
    ensures Shape(t, c)
  {
    Cluster(map p | p in t :: Object(0, BLANK), map p | p in t :: Proc(Down, None, map[], None, {}), [])
  }

  predicate Writing(ph: Phase) {
    ph.Publishing? || ph.Skipping? || ph.Retiring? || ph.Informing? || ph.Forgetting?
  }

  predicate Adding(ph: Phase) {
    ph.Publishing? || ph.Walking? || ph.Skipping? || ph.Deciding? || ph.Polling?
  }

  predicate Deleting(ph: Phase) {
    ph.Retiring? || ph.Informing? || ph.Forgetting?
  }

  /** The object a writing phase works on. */
  function Target(t: Topology, p: PodName, ph: Phase): PodName
    requires p in t && InRange(ph, |t[p]|) && Writing(ph)
  {
    if ph.Informing? then t[p][ph.at].peer else p
  }

  function Pending(t: Topology, p: PodName, ph: Phase): Write
    requires p in t && InRange(ph, |t[p]|) && Writing(ph)
  {
    match ph
    case Publishing(l) => SetLife(l.srcIp, l.netNs, l.containerId)
    case Skipping(i) => Append(Skipped(t[p][i].peer, t[p][i].uid))
    case Retiring => SetLife("", "", "")
    case Informing(i) => AddIfAbsent(Skipped(p, t[p][i].uid))
    case Forgetting(i) => Forget(t[p][i].peer, t[p][i].uid)
  }

  function AfterLink(t: Topology, p: PodName, i: nat): Phase
    requires p in t
  {
    if i < |t[p]| then Walking(i) else Up
  }

  function AfterForget(t: Topology, p: PodName, i: nat): Phase
    requires p in t
  {
    if i < |t[p]| then Informing(i) else Down
  }

  /** Where a writing phase leads once its write is done. */
  function Continue(t: Topology, p: PodName, ph: Phase): Phase
    requires p in t && InRange(ph, |t[p]|) && Writing(ph)
  {
    match ph
    case Publishing(_) => AfterLink(t, p, 0)
    case Skipping(i) => AfterLink(t, p, i + 1)
    case Retiring => AfterForget(t, p, 0)
    case Informing(i) => Forgetting(i)
    case Forgetting(i) => AfterForget(t, p, i + 1)
  }

  /** Records how link i of the pod ended and moves to the next link. */
  function Settle(t: Topology, p: PodName, pr: Proc, i: nat, o: Outcome): Proc
    requires p in t && i < |t[p]|
  {
    pr.(phase := AfterLink(t, p, i + 1), outcomes := pr.outcomes[i := o],
        built := if o == Initiated || o == Repaired then pr.built + {t[p][i]} else pr.built)
  }

  /** One of the two ends has made link i of the pod at some time; only then can
      interfaces or a wire of it be found. */
  predicate EverMade(t: Topology, c: Cluster, p: PodName, i: nat)
    requires Shape(t, c) && p in t && i < |t[p]|
  {
    var l := t[p][i];
    l in c.procs[p].built || Link(p, l.uid) in c.procs[l.peer].built
  }

  predicate SkippedBy(c: Cluster, peer: PodName, p: PodName, uid: int)
    requires peer in c.store
  {
    Skipped(p, uid) in c.store[peer].status.skipped
  }

  /** What an event does: the acting pod's next state and, if an update was
      accepted, the object as written and the log entry for it. */
  datatype Effect = Effect(proc: Proc, written: Option<Object>, commit: Commit)

  function Local(pr: Proc): Effect {
    Effect(pr, None, Commit("", Forget("", 0)))
  }

  function FetchEffect(t: Topology, c: Cluster, p: PodName): Proc
    requires Shape(t, c) && p in t && Writing(c.procs[p].phase)
  {
    var pr := c.procs[p];
    var o := c.store[Target(t, p, pr.phase)];
    if pr.phase.Informing? && !Alive(o.status) then
      // the peer is not running: there is nobody to tell
      pr.(phase := Forgetting(pr.phase.at), read := None)
    else
      pr.(read := Some(o))
  }

  /** The store accepts the write only if the object is as it was read;
      otherwise the read has to be repeated. */
  function UpdateEffect(t: Topology, c: Cluster, p: PodName): Effect
    requires Shape(t, c) && p in t && Writing(c.procs[p].phase) && c.procs[p].read.Some?
  {
    var pr := c.procs[p];
    var name := Target(t, p, pr.phase);
    var w := Pending(t, p, pr.phase);
    if c.store[name].version != pr.read.value.version then Local(pr.(read := None))
    else
      Effect(pr.(phase := Continue(t, p, pr.phase), read := None, stopped := if pr.phase.Publishing? then None else pr.stopped),
             Some(Object(pr.read.value.version + 1, Apply(w, pr.read.value.status))), Commit(name, w))
  }

  function LookUpEffect(t: Topology, c: Cluster, p: PodName): Proc
    requires Shape(t, c) && p in t && c.procs[p].phase.Walking?
  {
    var pr := c.procs[p];
    var i := pr.phase.at;
    var peer := c.store[t[p][i].peer].status;
    if Alive(peer) then
      pr.(phase := Deciding(i, peer.srcIp == c.store[p].status.srcIp))
    else
      pr.(phase := Skipping(i), read := None, outcomes := pr.outcomes[i := PeerDead])
  }

  function DecideEffect(t: Topology, c: Cluster, p: PodName, mine: bool, theirs: bool): Proc
    requires Shape(t, c) && p in t && c.procs[p].phase.Deciding?
  {
    var pr := c.procs[p];
    var i := pr.phase.at;
    var l := t[p][i];
    var go := SkippedBy(c, l.peer, p, l.uid) || Greater(p, l.peer);
    var made := EverMade(t, c, p, i);
    if pr.phase.sameNode then
      Settle(t, p, pr, i,
             if made && mine && theirs then Present
             else if made && mine != theirs then Repaired
             else if go then Initiated
             else Deferred)
    else if go then Settle(t, p, pr, i, if made && mine then Present else Initiated)
    else pr.(phase := Polling(i, 0))
  }

  /** What the lower-priority end reads on one tick: does the wire exist, has the
      peer skipped us, and, if so, does the wire exist by now. */
  datatype Tick = Tick(present: bool, skipped: bool, late: bool)

  /** How poll number `polls` + 1 ends the wait, if it does. */
  function EndOfWait(polls: nat, r: Tick): Option<Outcome> {
    if r.present then Some(Present)
    else if r.skipped then Some(if r.late then Present else Initiated)
    else if polls + 1 == RETRY_COUNT then Some(GaveUp)
    else None
  }

  function PollEffect(t: Topology, c: Cluster, p: PodName, present: bool, late: bool): Proc
    requires Shape(t, c) && p in t && c.procs[p].phase.Polling?
  {
    var pr := c.procs[p];
    var i := pr.phase.at;
    var l := t[p][i];
    var made := EverMade(t, c, p, i);
    match EndOfWait(pr.phase.polls, Tick(made && present, SkippedBy(c, l.peer, p, l.uid), made && late))
    case Some(o) => Settle(t, p, pr, i, o)
    case None => pr.(phase := Polling(i, pr.phase.polls + 1))
  }

  function FailDelEffect(pr: Proc): Proc {
    match pr.phase
    case Retiring => pr.(phase := Broken, read := None)
    case Informing(i) => pr.(phase := Down, read := None, stopped := Some(i))
    case Forgetting(i) => pr.(phase := Down, read := None, stopped := Some(i + 1))
    case _ => pr
  }

  /** An event that is not possible in the current phase changes nothing, so
      every list of events is a run. */
  function EffectOf(t: Topology, c: Cluster, e: Event): Effect
    requires Shape(t, c) && e.pod in t
  {
    var p := e.pod;
    var pr := c.procs[p];
    match e
    case BeginAdd(_, life) =>
      Local(if pr.phase == Down && Proper(life) then pr.(phase := Publishing(life), read := None, outcomes := map[]) else pr)
    case Fetch(_) => Local(if Writing(pr.phase) then FetchEffect(t, c, p) else pr)
    case TryUpdate(_) => if Writing(pr.phase) && pr.read.Some? then UpdateEffect(t, c, p) else Local(pr)
    case LookUpPeer(_) => Local(if pr.phase.Walking? then LookUpEffect(t, c, p) else pr)
    case Decide(_, mine, theirs) => Local(if pr.phase.Deciding? then DecideEffect(t, c, p, mine, theirs) else pr)
    case Poll(_, present, late) => Local(if pr.phase.Polling? then PollEffect(t, c, p, present, late) else pr)
    case FailAdd(_) =>
      Local(if Adding(pr.phase) then pr.(phase := if pr.phase.Publishing? then Down else Broken, read := None) else pr)
    case BeginDel(_, id) =>
      // a DEL for any container other than the recorded one is a duplicate
      Local(if pr.phase in {Up, Broken, Down} && id != "" && id == c.store[p].status.containerId
            then pr.(phase := Retiring, read := None) else pr)
    case FailDel(_) => Local(FailDelEffect(pr))
  }

  lemma EffectInRange(t: Topology, c: Cluster, e: Event)
    requires Shape(t, c) && e.pod in t
    ensures InRange(EffectOf(t, c, e).proc.phase, |t[e.pod]|)
    ensures EffectOf(t, c, e).written.Some? ==> EffectOf(t, c, e).commit.name in t
  {
  }

  function Step(t: Topology, c: Cluster, e: Event): (d: Cluster)
    requires Shape(t, c)
    ensures Shape(t, d)
  {
    if e.pod !in t then c
    else
      var f := EffectOf(t, c, e);
      EffectInRange(t, c, e);
      Cluster(if f.written.Some? then c.store[f.commit.name := f.written.value] else c.store,
              c.procs[e.pod := f.proc],
              if f.written.Some? then c.log + [f.commit] else c.log)
  }

  /** The state after a run. */
  ghost function Exec(t: Topology, c: Cluster, es: seq<Event>): (r: Cluster)
    requires Shape(t, c)
    ensures Shape(t, r)
  {
    if es == [] then c else Step(t, Exec(t, c, es[..|es| - 1]), es[|es| - 1])
  }

  /** The states a run goes through. */
  ghost predicate Follows(t: Topology, cs: seq<Cluster>, es: seq<Event>) {
    && WellFormed(t) && |cs| == |es| + 1 && cs[0] == Init(t)
    && forall i {:trigger es[i]} :: 0 <= i < |es| ==> Shape(t, cs[i]) && cs[i + 1] == Step(t, cs[i], es[i])
  }

  ghost predicate Reachable(t: Topology, c: Cluster) {
    Shape(t, c) && exists cs, es :: Follows(t, cs, es) && cs[|es|] == c
  }

  lemma {:induction false} FollowsIsExec(t: Topology, cs: seq<Cluster>, es: seq<Event>, n: nat)
    requires Follows(t, cs, es) && n <= |es|
    ensures Exec(t, Init(t), es[..n]) == cs[n]
  {
    hide Shape;
    if n > 0 {
      FollowsIsExec(t, cs, es, n - 1);
      assert es[..n][..n - 1] == es[..n - 1] && es[..n][n - 1] == es[n - 1];
    }
  }

  lemma ReachableByRun(t: Topology, c: Cluster) returns (es: seq<Event>)
    requires Reachable(t, c)
    ensures Exec(t, Init(t), es) == c
  {
    var cs, fs :| Follows(t, cs, fs) && cs[|fs|] == c;
    FollowsIsExec(t, cs, fs, |fs|);
    assert fs[..|fs|] == fs;
    es := fs;
  }

  lemma FollowsOn(t: Topology, cs: seq<Cluster>, es: seq<Event>, e: Event)
    requires Follows(t, cs, es) && Shape(t, cs[|es|])
    ensures Follows(t, cs + [Step(t, cs[|es|], e)], es + [e])
  {
    var ds, fs := cs + [Step(t, cs[|es|], e)], es + [e];
    forall i | 0 <= i < |fs| ensures Shape(t, ds[i]) && ds[i + 1] == Step(t, ds[i], fs[i]) {
      if i < |es| { assert fs[i] == es[i]; }
    }
  }

  /** One more event. */
  lemma Extend(t: Topology, c: Cluster, e: Event)
    requires Reachable(t, c)
    ensures Reachable(t, Step(t, c, e))
  {
    var cs, es :| Follows(t, cs, es) && cs[|es|] == c;
    FollowsOn(t, cs, es, e);
    assert (cs + [Step(t, c, e)])[|es + [e]|] == Step(t, c, e);
  }

  lemma {:induction false} ReachableExec(t: Topology, c: Cluster, es: seq<Event>)
    requires Reachable(t, c)
    ensures Reachable(t, Exec(t, c, es))
  {
    if es != [] {
      ReachableExec(t, c, es[..|es| - 1]);
      Extend(t, Exec(t, c, es[..|es| - 1]), es[|es| - 1]);
    }
  }

  lemma InitIsReachable(t: Topology)
    requires WellFormed(t)
    ensures Reachable(t, Init(t))
  {
    var es: seq<Event> := [];
    assert Follows(t, [Init(t)], es) && [Init(t)][|es|] == Init(t);
  }
}
