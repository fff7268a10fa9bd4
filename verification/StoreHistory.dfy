/** Optimistic concurrency loses nothing: the objects are the committed writes
    applied one by one in commit order. */
module StoreHistory {
  import opened Options
  import opened PodNames
  import opened TopologyStore
  import opened LinkProtocol
  import opened LinkInvariants

  /** The writes a log holds for one object, in order. */
  function WritesTo(log: seq<Commit>, n: PodName): seq<Write> {
    if log == [] then []
    else
      var last := log[|log| - 1];
      WritesTo(log[..|log| - 1], n) + if last.name == n then [last.write] else []
  }

  ghost predicate ReplayedAt(c: Cluster, n: PodName)
    requires n in c.store
  {
    c.store[n] == After(Object(0, BLANK), WritesTo(c.log, n))
  }

  ghost predicate Replayed(t: Topology, c: Cluster)
    requires Shape(t, c)
  {
    forall n :: n in t ==> ReplayedAt(c, n)
  }

  lemma LogGrows(log: seq<Commit>, name: PodName, w: Write, n: PodName)
    ensures WritesTo(log + [Commit(name, w)], n) == WritesTo(log, n) + if name == n then [w] else []
  {
    assert (log + [Commit(name, w)])[..|log|] == log;
  }

  lemma OneMoreWrite(o: Object, ws: seq<Write>, w: Write)
    ensures After(o, ws + [w]) == Object(After(o, ws).version + 1, Apply(w, After(o, ws).status))
  {
    assert (ws + [w])[..|ws|] == ws;
  }

  lemma CommitReplaysAt(t: Topology, c: Cluster, p: PodName, n: PodName)
    requires Shape(t, c) && p in t && n in t && Committing(t, c, p) && ReplayedAt(c, n)
    ensures n in Committed(t, c, p).store && ReplayedAt(Committed(t, c, p), n)
  {
    hide Apply;
    var name, w := Target(t, p, c.procs[p].phase), Pending(t, p, c.procs[p].phase);
    LogGrows(c.log, name, w, n);
    OneMoreWrite(Object(0, BLANK), WritesTo(c.log, n), w);
    assert WritesTo(c.log, n) + [] == WritesTo(c.log, n);
  }

  lemma OnlyUpdatesWrite(t: Topology, c: Cluster, e: Event)
    requires Shape(t, c) && !(e.pod in t && e.TryUpdate? && EffectOf(t, c, e).written.Some?)
    ensures Step(t, c, e).store == c.store && Step(t, c, e).log == c.log
  {
    hide WellFormed, Apply, EverMade;
  }

  lemma StepReplays(t: Topology, c: Cluster, e: Event)
    requires Inv(t, c) && Replayed(t, c)
    ensures Replayed(t, Step(t, c, e))
  {
    hide WellFormed, Apply, EffectOf;
    if e.pod in t && e.TryUpdate? && EffectOf(t, c, e).written.Some? {
      assert PodInv(t, c, e.pod);
      UpdateIsCommit(t, c, e.pod);
      forall n | n in t ensures ReplayedAt(Step(t, c, e), n) { CommitReplaysAt(t, c, e.pod, n); }
    } else {
      OnlyUpdatesWrite(t, c, e);
    }
  }

  /** A call is written at most once: a step that appends to the log appends the
      acting pod's pending write and moves that pod on. */
  lemma CallIsWrittenOnce(t: Topology, c: Cluster, e: Event)
    requires Inv(t, c) && Step(t, c, e).log != c.log
    ensures e == TryUpdate(e.pod) && e.pod in t && Writing(c.procs[e.pod].phase)
    ensures Step(t, c, e).log == c.log + [Commit(Target(t, e.pod, c.procs[e.pod].phase), Pending(t, e.pod, c.procs[e.pod].phase))]
    ensures Step(t, c, e).procs[e.pod].phase == Continue(t, e.pod, c.procs[e.pod].phase) != c.procs[e.pod].phase
  {
    assert e.pod in t && e.TryUpdate?;
    assert PodInv(t, c, e.pod);
    UpdateIsCommit(t, c, e.pod);
  }

  /** A write goes through exactly if the object is still what was read; otherwise nothing
      happens but that the object has to be read again. */
  lemma CommitsIff(t: Topology, c: Cluster, p: PodName)
    requires Inv(t, c) && p in t && Writing(c.procs[p].phase) && c.procs[p].read.Some?
    ensures var d := Step(t, c, TryUpdate(p));
      if c.store[Target(t, p, c.procs[p].phase)] == c.procs[p].read.value then d == Committed(t, c, p)
      else d == WithProc(c, p, c.procs[p].(read := None))
  {
    hide WellFormed, LifeMatchesPhase, EntriesAreLinks, ListDrains, PeersCovered, Committed, Quiet;
    assert PodInv(t, c, p);
    UpdateIsCommit(t, c, p);
    UpdateWritesIff(t, c, p);
  }

  lemma UpdateWritesIff(t: Topology, c: Cluster, p: PodName)
    requires Shape(t, c) && p in t && Writing(c.procs[p].phase) && c.procs[p].read.Some? && ReadIsHonest(t, c, p)
    ensures EffectOf(t, c, TryUpdate(p)).written.Some? <==> c.store[Target(t, p, c.procs[p].phase)] == c.procs[p].read.value
    ensures EffectOf(t, c, TryUpdate(p)).written.None? ==> Step(t, c, TryUpdate(p)) == WithProc(c, p, c.procs[p].(read := None))
  {
    hide WellFormed, Apply, Continue, Pending, Alive;
  }

  /** In every run of concurrent SetAlive, Skip and SkipReverse calls, each object
      is its committed writes applied in commit order, and its version counts them. */
  lemma {:induction false} NothingIsLost(t: Topology, es: seq<Event>)
    requires WellFormed(t)
    ensures Replayed(t, Exec(t, Init(t), es))
  {
    if es == [] {
      forall n | n in t ensures ReplayedAt(Init(t), n) {
        assert ApplyAll([], BLANK) == BLANK;
      }
    } else {
      var front := es[..|es| - 1];
      NothingIsLost(t, front);
      InitInv(t);
      ExecKeepsInv(t, Init(t), front);
      StepReplays(t, Exec(t, Init(t), front), es[|es| - 1]);
    }
  }
}
