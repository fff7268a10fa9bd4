/** One round of the carrier watch over all the wires of a node. */
module CarrierWatch {
  import opened Options
  import opened Debounce
  import opened CarrierMirror

  datatype Sample = Sample(key: int, up: bool)

  function ObserveAll(s: State, d: nat, samples: seq<Sample>, now: int): State {
    if samples == [] then s
    else
      var last := samples[|samples| - 1];
      Observed(ObserveAll(s, d, samples[..|samples| - 1], now), d, last.key, last.up, now)
  }

  predicate DistinctSamples(samples: seq<Sample>) {
    forall i, j :: 0 <= i < j < |samples| ==> samples[i].key != samples[j].key
  }

  predicate HasSample(samples: seq<Sample>, k: int) {
    exists i :: 0 <= i < |samples| && samples[i].key == k
  }

  /** The port of a key after the sampling part of a round. */
  function Seen(samples: seq<Sample>, p: Port, k: int, d: nat, now: int): Port {
    if HasSample(samples, k) then PortObserve(p, d, now) else p
  }

  /** The round's view of port p is that of key k. */
  ghost predicate PortOf(s: State, echo: map<int, bool>, samples: seq<Sample>, k: int, p: Port) {
    && Shows(s, k, p) && p.echo == At(echo, k)
    && (forall i :: 0 <= i < |samples| && samples[i].key == k ==> samples[i].up == p.carrier)
  }

  lemma {:induction false} SamplesArePerKey(s: State, d: nat, samples: seq<Sample>, now: int, k: int, p: Port)
    requires DistinctSamples(samples) && Shows(s, k, p)
    requires forall i :: 0 <= i < |samples| && samples[i].key == k ==> samples[i].up == p.carrier
    ensures Shows(ObserveAll(s, d, samples, now), k, Seen(samples, p, k, d, now))
  {
    if samples != [] {
      var n := |samples| - 1;
      var front := samples[..n];
      SamplesArePerKey(s, d, front, now, k, p);
      assert forall i :: 0 <= i < n ==> front[i] == samples[i];
      assert samples[n].key == k ==> HasSample(samples, k) && !HasSample(front, k);
      assert HasSample(front, k) ==> HasSample(samples, k);
      ObserveIsPerKey(ObserveAll(s, d, front, now), d, k, Seen(front, p, k, d, now), samples[n].key, samples[n].up, now);
    }
  }

  /** The echo that port p of key k expects. */
  predicate Expects(echo: map<int, bool>, k: int, p: Port) {
    p.echo == At(echo, k)
  }

  class Watch {
    const deb: Debouncer
    var echo: map<int, bool>

    ghost predicate Valid()
      reads this, deb
    {
      deb.Valid()
    }

    /** A daemon starts with this: each port is as after a restart. */
    constructor (debounce: nat)
      ensures Valid() && fresh(deb) && deb.debounce == debounce && echo == map[] && deb.history == []
      ensures forall k, p {:trigger Shows(deb.View(), k, Forgotten(p))} :: Shows(deb.View(), k, Forgotten(p)) && Expects(echo, k, Forgotten(p))
    {
      deb := new Debouncer(debounce);
      echo := map[];
    }

    /** The bookkeeping of a mirrored change: it does to the port of each key what
        mirroring at that end does, and leaves the debouncer alone. */
    method SuppressEcho(key: int, up: bool)
      modifies this`echo
      ensures echo == old(echo)[key := up] && deb.View() == old(deb.View())
      ensures forall k, p {:trigger Expects(old(echo), k, p)} ::
        Expects(old(echo), k, p) ==> Expects(echo, k, if k == key then Mirror(p, up) else p)
    {
      echo := echo[key := up];
    }

    /** A matching expectation is used up; any other is left alone. */
    method ConsumeEcho(key: int, up: bool) returns (consumed: bool)
      modifies this
      ensures consumed <==> At(old(echo), key) == Some(up)
      ensures echo == if consumed then old(echo) - {key} else old(echo)
    {
      if key in echo && echo[key] == up {
        echo := echo - {key};
        return true;
      }
      return false;
    }

    /** A round refines the rounds of its ports: the edge of each key is swallowed if
        its echo was expected and sent to the peer otherwise. */
    method Round(samples: seq<Sample>, now: int) returns (sent: seq<Edge>)
      requires Valid() && DistinctSamples(samples)
      modifies this, deb
      ensures Valid()
      ensures forall k, p {:trigger PortOf(old(deb.View()), old(echo), samples, k, p)} ::
        PortOf(old(deb.View()), old(echo), samples, k, p) ==>
          var seen := Seen(samples, p, k, deb.debounce, now);
          && Shows(deb.View(), k, PortDue(seen, now))
          && At(echo, k) == (if PortEdge(seen, now).Some? && p.echo == PortEdge(seen, now) then None else p.echo)
          && forall up :: Edge(k, up) in sent <==> PortEdge(seen, now) == Some(up) && p.echo != Some(up)
    {
      ghost var s, echo0 := deb.View(), echo;
      for i := 0 to |samples|
        invariant Valid() && echo == echo0 && deb.View() == ObserveAll(s, deb.debounce, samples[..i], now)
      {
        assert samples[..i + 1][..i] == samples[..i];
        deb.Observe(samples[i].key, samples[i].up, now);
      }
      assert samples[..|samples|] == samples;
      ghost var mid := deb.View();
      var edges := deb.Due(now);
      sent := [];
      for i := 0 to |edges|
        invariant Valid() && deb.View() == AfterDue(mid, now)
        invariant forall k :: At(echo, k) == if exists j :: 0 <= j < i && edges[j] == Edge(k, edges[j].up) && At(echo0, k) == Some(edges[j].up) then None else At(echo0, k)
        invariant forall e :: e in sent <==> e in edges[..i] && At(echo0, e.key) != Some(e.up)
      {
        var e := edges[i];
        var consumed := ConsumeEcho(e.key, e.up);
        if !consumed {
          sent := sent + [e];
        }
      }
      forall k, p | PortOf(s, echo0, samples, k, p)
        ensures var seen := Seen(samples, p, k, deb.debounce, now);
          && Shows(deb.View(), k, PortDue(seen, now))
          && At(echo, k) == (if PortEdge(seen, now).Some? && p.echo == PortEdge(seen, now) then None else p.echo)
          && forall up :: Edge(k, up) in sent <==> PortEdge(seen, now) == Some(up) && p.echo != Some(up)
      {
        SamplesArePerKey(s, deb.debounce, samples, now, k, p);
        DueIsPerKey(mid, k, Seen(samples, p, k, deb.debounce, now), now);
      }
    }
  }
}
