/** The carrier debouncer and the history it stands for. */
module Debounce {
  import opened Options

  datatype Edge = Edge(key: int, up: bool)

  // ------------------------------------------------- history specification

  /** The calls a debouncer has seen, oldest first. */
  datatype Call = Observe(key: int, up: bool, now: int) | Due(now: int)

  /** The value a key was last seen to change to, and when. */
  datatype Change = Change(up: bool, at: int)

  function LastChange(h: seq<Call>, k: int): Option<Change> {
    if h == [] then None
    else
      var before := LastChange(h[..|h| - 1], k);
      match h[|h| - 1]
      case Observe(key, up, now) =>
        if key != k || (before.Some? && before.value.up == up) then before else Some(Change(up, now))
      case Due(_) => before
  }

  /** The key has had its last value for at least d. */
  predicate Stable(h: seq<Call>, k: int, d: nat, now: int) {
    LastChange(h, k).Some? && LastChange(h, k).value.at + d <= now
  }

  /** All edges the key has had, oldest first: a Due reports a stable value unless
      it is the one reported last. */
  function EdgesOf(h: seq<Call>, k: int, d: nat): seq<bool> {
    if h == [] then []
    else
      var front := h[..|h| - 1];
      var edges := EdgesOf(front, k, d);
      if h[|h| - 1].Due? && Fires(front, edges, k, d, h[|h| - 1].now) then edges + [LastChange(front, k).value.up] else edges
  }

  predicate Fires(h: seq<Call>, edges: seq<bool>, k: int, d: nat, now: int) {
    Stable(h, k, d, now) && (edges == [] || edges[|edges| - 1] != LastChange(h, k).value.up)
  }

  /** The edges of one Due. */
  ghost predicate Emitted(h: seq<Call>, d: nat, now: int, e: Edge) {
    Fires(h, EdgesOf(h, e.key, d), e.key, d, now) && e.up == LastChange(h, e.key).value.up
  }

  // ------------------------------------------------------------ the state

  datatype State = State(pending: map<int, bool>, deadline: map<int, int>, emitted: map<int, bool>)

  function Observed(s: State, d: nat, key: int, up: bool, now: int): State {
    if key in s.pending && s.pending[key] == up then s
    else s.(pending := s.pending[key := up], deadline := s.deadline[key := now + d])
  }

  predicate Expired(s: State, now: int, k: int) {
    k in s.deadline && s.deadline[k] <= now
  }

  function AfterDue(s: State, now: int): State
    requires s.deadline.Keys <= s.pending.Keys
  {
    State(s.pending,
          map k | k in s.deadline && !Expired(s, now, k) :: s.deadline[k],
          map k | k in s.emitted.Keys + s.deadline.Keys && (k in s.emitted || Expired(s, now, k)) ::
            if Expired(s, now, k) then s.pending[k] else s.emitted[k])
  }

  predicate Reports(s: State, now: int, e: Edge)
    requires s.deadline.Keys <= s.pending.Keys
  {
    Expired(s, now, e.key) && e.up == s.pending[e.key] && !(e.key in s.emitted && s.emitted[e.key] == e.up)
  }

  /** What the three maps say about one key, in terms of its history. */
  ghost predicate KeyMatches(s: State, h: seq<Call>, d: nat, k: int) {
    var change := LastChange(h, k);
    var edges := EdgesOf(h, k, d);
    && (k in s.pending <==> change.Some?)
    && (k in s.pending ==> s.pending[k] == change.value.up)
    && (k in s.emitted <==> edges != [])
    && (k in s.emitted ==> s.emitted[k] == edges[|edges| - 1])
    && (k in s.deadline ==> k in s.pending && s.deadline[k] == change.value.at + d)
    && (k in s.pending && k !in s.deadline ==> k in s.emitted && s.emitted[k] == s.pending[k])
  }

  ghost predicate Matches(s: State, h: seq<Call>, d: nat) {
    forall k :: KeyMatches(s, h, d, k)
  }

  lemma ObserveKeepsKey(s: State, h: seq<Call>, d: nat, key: int, up: bool, now: int, k: int)
    requires KeyMatches(s, h, d, k)
    ensures KeyMatches(Observed(s, d, key, up, now), h + [Observe(key, up, now)], d, k)
  {
    assert (h + [Observe(key, up, now)])[..|h|] == h;
  }

  lemma DueKeepsKey(s: State, h: seq<Call>, d: nat, now: int, k: int)
    requires s.deadline.Keys <= s.pending.Keys && KeyMatches(s, h, d, k)
    ensures KeyMatches(AfterDue(s, now), h + [Due(now)], d, k)
    ensures forall up :: Reports(s, now, Edge(k, up)) <==> Emitted(h, d, now, Edge(k, up))
  {
    assert (h + [Due(now)])[..|h|] == h;
  }

  lemma StateFollowsHistory(s: State, h: seq<Call>, d: nat, c: Call)
    requires Matches(s, h, d)
    ensures s.deadline.Keys <= s.pending.Keys
    ensures Matches(if c.Due? then AfterDue(s, c.now) else Observed(s, d, c.key, c.up, c.now), h + [c], d)
    ensures c.Due? ==> forall e :: Reports(s, c.now, e) <==> Emitted(h, d, c.now, e)
  {
    forall k | k in s.deadline ensures k in s.pending { assert KeyMatches(s, h, d, k); }
    var s' := if c.Due? then AfterDue(s, c.now) else Observed(s, d, c.key, c.up, c.now);
    var h' := h + [c];
    forall k ensures KeyMatches(s', h', d, k) {
      if c.Due? { DueKeepsKey(s, h, d, c.now, k); } else { ObserveKeepsKey(s, h, d, c.key, c.up, c.now, k); }
    }
    if c.Due? {
      forall e ensures Reports(s, c.now, e) <==> Emitted(h, d, c.now, e) {
        DueKeepsKey(s, h, d, c.now, e.key);
        assert e == Edge(e.key, e.up);
      }
    }
  }

  ghost predicate SameAt(a: State, b: State, k: int) {
    && (k in a.pending <==> k in b.pending) && (k in a.pending ==> a.pending[k] == b.pending[k])
    && (k in a.deadline <==> k in b.deadline) && (k in a.deadline ==> a.deadline[k] == b.deadline[k])
    && (k in a.emitted <==> k in b.emitted) && (k in a.emitted ==> a.emitted[k] == b.emitted[k])
  }

  lemma SameEverywhere(a: State, b: State)
    requires forall k :: SameAt(a, b, k)
    ensures a == b
  {
    forall k
      ensures k in a.pending <==> k in b.pending
      ensures k in a.deadline <==> k in b.deadline
      ensures k in a.emitted <==> k in b.emitted
      ensures k in a.pending ==> a.pending[k] == b.pending[k]
      ensures k in a.deadline ==> a.deadline[k] == b.deadline[k]
      ensures k in a.emitted ==> a.emitted[k] == b.emitted[k]
    {
      assert SameAt(a, b, k);
    }
    assert a.pending == b.pending && a.deadline == b.deadline && a.emitted == b.emitted;
  }

  /** One key of Due's loop. */
  function Considered(s: State, now: int, k: int): State
    requires k in s.pending
  {
    if !Expired(s, now, k) then s
    else State(s.pending, s.deadline - {k}, s.emitted[k := s.pending[k]])
  }

  /** Each key is as it was until its turn, and as after the whole Due from then on. */
  ghost predicate Halfway(s: State, mid: State, now: int, todo: set<int>, k: int)
    requires s.deadline.Keys <= s.pending.Keys
  {
    SameAt(mid, if k in todo then s else AfterDue(s, now), k)
  }

  lemma KeysAreIndependent(s: State, mid: State, now: int, k: int, todo: set<int>)
    requires s.deadline.Keys <= s.pending.Keys && mid.deadline.Keys <= mid.pending.Keys && k in todo && k in s.deadline && k in mid.pending
    requires forall x :: Halfway(s, mid, now, todo, x)
    ensures forall x :: Halfway(s, Considered(mid, now, k), now, todo - {k}, x)
    ensures forall up :: Reports(mid, now, Edge(k, up)) <==> Reports(s, now, Edge(k, up))
  {
    assert Halfway(s, mid, now, todo, k);
    forall x ensures Halfway(s, Considered(mid, now, k), now, todo - {k}, x) {
      assert Halfway(s, mid, now, todo, x);
    }
  }

  // ------------------------------------------------------------ the class

  class Debouncer {
    const debounce: nat
    var pending: map<int, bool>
    var deadline: map<int, int>
    var emitted: map<int, bool>
    ghost var history: seq<Call>

    ghost function View(): State
      reads this
    {
      State(pending, deadline, emitted)
    }

    ghost predicate Valid()
      reads this
    {
      Matches(View(), history, debounce)
    }

    constructor (debounce: nat)
      ensures Valid() && history == [] && View() == State(map[], map[], map[]) && this.debounce == debounce
    {
      this.debounce := debounce;
      pending, deadline, emitted := map[], map[], map[];
      history := [];
    }

    method Observe(key: int, up: bool, now: int)
      requires Valid()
      modifies this
      ensures Valid() && history == old(history) + [Call.Observe(key, up, now)]
      ensures View() == Observed(old(View()), debounce, key, up, now)
    {
      StateFollowsHistory(View(), history, debounce, Call.Observe(key, up, now));
      history := history + [Call.Observe(key, up, now)];
      // a sample that repeats the last one must not push the deadline forward
      if key in pending && pending[key] == up {
        return;
      }
      pending := pending[key := up];
      deadline := deadline[key := now + debounce];
    }

    method Consider(k: int, now: int) returns (edges: seq<Edge>)
      requires k in deadline && k in pending
      modifies this
      ensures View() == Considered(old(View()), now, k) && history == old(history)
      ensures deadline.Keys <= old(deadline.Keys)
      ensures edges == if deadline != old(deadline) && !(k in old(emitted) && old(emitted)[k] == pending[k]) then [Edge(k, pending[k])] else []
    {
      if now < deadline[k] {
        return [];
      }
      deadline := deadline - {k};
      var up := pending[k];
      if k in emitted && emitted[k] == up {
        assert emitted[k := up] == emitted;
        return [];
      }
      emitted := emitted[k := up];
      return [Edge(k, up)];
    }

    /** The edges that are due, in an unspecified order: exactly those the history
        calls for, each key at most once. */
    method Due(now: int) returns (edges: seq<Edge>)
      requires Valid()
      modifies this
      ensures Valid() && history == old(history) + [Call.Due(now)]
      ensures old(View()).deadline.Keys <= old(View()).pending.Keys && View() == AfterDue(old(View()), now)
      ensures forall e :: e in edges <==> Reports(old(View()), now, e)
      ensures forall e :: e in edges <==> Emitted(old(history), debounce, now, e)
      ensures forall i, j :: 0 <= i < j < |edges| ==> edges[i].key != edges[j].key
    {
      ghost var s := View();
      StateFollowsHistory(s, history, debounce, Call.Due(now));
      edges := [];
      var todo := deadline.Keys;
      while todo != {}
        invariant todo <= s.deadline.Keys
        invariant pending == s.pending && deadline.Keys <= s.deadline.Keys && history == old(history)
        invariant forall k :: Halfway(s, View(), now, todo, k)
        invariant forall e :: e in edges <==> e.key in s.deadline.Keys - todo && Reports(s, now, e)
        invariant forall i, j :: 0 <= i < j < |edges| ==> edges[i].key != edges[j].key
        decreases todo
      {
        var k :| k in todo;
        assert Halfway(s, View(), now, todo, k);
        KeysAreIndependent(s, View(), now, k, todo);
        var more := Consider(k, now);
        todo := todo - {k};
        edges := edges + more;
      }
      forall k ensures SameAt(View(), AfterDue(s, now), k) { assert Halfway(s, View(), now, todo, k); }
      SameEverywhere(View(), AfterDue(s, now));
      history := history + [Call.Due(now)];
    }
  }
}
