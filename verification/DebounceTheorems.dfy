/** What the edges of a debouncer mean, for every sequence of calls. */
module DebounceTheorems {
  import opened Options
  import opened Debounce

  /** From call i on, every sample of the key is `up`. */
  ghost predicate AllFrom(h: seq<Call>, i: nat, k: int, up: bool) {
    forall j :: i <= j < |h| && h[j].Observe? && h[j].key == k ==> h[j].up == up
  }

  /** The last change is the sample from which on the key never differed again. */
  lemma {:induction false} LastChangeMeans(h: seq<Call>, k: int) returns (i: nat)
    requires LastChange(h, k).Some?
    ensures var c := LastChange(h, k).value; i < |h| && h[i] == Observe(k, c.up, c.at) && AllFrom(h, i, k, c.up)
  {
    var n := |h| - 1;
    var front := h[..n];
    if LastChange(h, k) == LastChange(front, k) && !(h[n].Observe? && h[n].key == k && h[n].up != LastChange(front, k).value.up) {
      i := LastChangeMeans(front, k);
      assert forall j :: 0 <= j < n ==> h[j] == front[j];
    } else {
      i := n;
    }
  }

  /** An edge is reported only for a value that the key took at least one debounce
      ago and has kept in every sample since. */
  lemma EdgeMeansStable(h: seq<Call>, d: nat, now: int, e: Edge) returns (i: nat)
    requires Emitted(h, d, now, e)
    ensures i < |h| && h[i].Observe? && h[i].key == e.key && h[i].up == e.up && h[i].now + d <= now
    ensures AllFrom(h, i, e.key, e.up)
  {
    i := LastChangeMeans(h, e.key);
  }

  /** Successive edges of a key differ. */
  lemma {:induction false} EdgesAlternate(h: seq<Call>, k: int, d: nat, i: nat)
    requires i + 1 < |EdgesOf(h, k, d)|
    ensures EdgesOf(h, k, d)[i] != EdgesOf(h, k, d)[i + 1]
  {
    var front := h[..|h| - 1];
    if i + 1 < |EdgesOf(front, k, d)| {
      EdgesAlternate(front, k, d, i);
    }
  }

  /** After a Due, every key that has been stable for a debounce has its value
      reported last; and a key that has not is left as it was. */
  lemma DueCatchesUp(h: seq<Call>, k: int, d: nat, now: int)
    ensures var edges := EdgesOf(h + [Due(now)], k, d);
      if Stable(h, k, d, now) then edges != [] && edges[|edges| - 1] == LastChange(h, k).value.up
      else edges == EdgesOf(h, k, d)
  {
    assert (h + [Due(now)])[..|h|] == h;
  }

  /** How often the samples of a key changed. */
  function Changes(h: seq<Call>, k: int): nat {
    if h == [] then 0
    else Changes(h[..|h| - 1], k) + if LastChange(h, k) != LastChange(h[..|h| - 1], k) then 1 else 0
  }

  /** The value of the last change was reported already. */
  ghost predicate CaughtUp(h: seq<Call>, k: int, d: nat) {
    var edges := EdgesOf(h, k, d);
    LastChange(h, k).None? || (edges != [] && edges[|edges| - 1] == LastChange(h, k).value.up)
  }

  /** Flaps are collapsed: a key never has more edges than changes, and while its
      last change is unreported it has strictly fewer. */
  lemma {:induction false} NoMoreEdgesThanChanges(h: seq<Call>, k: int, d: nat)
    ensures |EdgesOf(h, k, d)| <= Changes(h, k)
    ensures !CaughtUp(h, k, d) ==> |EdgesOf(h, k, d)| < Changes(h, k)
    ensures LastChange(h, k).None? ==> EdgesOf(h, k, d) == []
  {
    if h != [] {
      var front := h[..|h| - 1];
      NoMoreEdgesThanChanges(front, k, d);
      if LastChange(h, k) != LastChange(front, k) {
        assert !h[|h| - 1].Due?;
      }
    }
  }
}
