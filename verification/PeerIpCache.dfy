/** The cache of cluster node addresses that gates every dial to a peer. */
module PeerIpCache {
  import opened Options

  /** Seconds. */
  const TTL := 30
  const RETRY_INTERVAL := 5

  datatype Kind = InternalIP | ExternalIP | Hostname | OtherKind

  datatype Address = Address(kind: Kind, ip: string)

  /** The addresses of the nodes of a listing that may be dialled. */
  predicate Known(nodes: seq<seq<Address>>, ip: string) {
    exists n :: 0 <= n < |nodes| && Has(nodes[n], ip)
  }

  predicate Has(addrs: seq<Address>, ip: string) {
    exists a :: 0 <= a < |addrs| && Dialable(addrs[a], ip)
  }

  predicate Dialable(a: Address, ip: string) {
    (a.kind == InternalIP || a.kind == ExternalIP) && a.ip == ip && ip != ""
  }

  /** The cluster as it is at each instant; None when listing it fails. */
  type Cluster = int -> Option<seq<seq<Address>>>

  predicate KnownAt(cluster: Cluster, t: int, ip: string) {
    cluster(t).Some? && Known(cluster(t).value, ip)
  }

  ghost predicate KnownFrom(cluster: Cluster, from: int, ip: string) {
    forall t :: from <= t ==> KnownAt(cluster, t, ip)
  }

  /** What a check at `now` goes by: the listing that is not older than a TTL, or one made
      now. `expiry` is None before the first listing. */
  predicate Answers(cluster: Cluster, expiry: Option<int>, ip: string, now: int) {
    KnownAt(cluster, if expiry.Some? && now <= expiry.value then expiry.value - 30 else now, ip)
  }

  function Later(cluster: Cluster, expiry: Option<int>, now: int): Option<int> {
    if (expiry.Some? && now <= expiry.value) || cluster(now).None? then expiry else Some(now + 30)
  }

  /** The expiry before poll i, five seconds after the one before. */
  function ExpiryAt(cluster: Cluster, expiry: Option<int>, start: int, i: nat): Option<int> {
    if i == 0 then expiry else Later(cluster, ExpiryAt(cluster, expiry, start, i - 1), start + 5 * (i - 1))
  }

  /** Poll i of a wait accepts the address. */
  predicate Accepts(cluster: Cluster, expiry: Option<int>, ip: string, start: int, i: nat) {
    Answers(cluster, ExpiryAt(cluster, expiry, start, i), ip, start + 5 * i)
  }

  class Cache {
    var addresses: Option<set<string>>
    var expiry: int

    /** The cached set is what the cluster listed one TTL before it expires. */
    ghost predicate Valid(cluster: Cluster)
      reads this
    {
      addresses.Some? ==> cluster(expiry - TTL).Some? && forall ip :: ip in addresses.value <==> Known(cluster(expiry - TTL).value, ip)
    }

    function Expiry(): Option<int>
      reads this
    {
      if addresses.Some? then Some(expiry) else None
    }

    constructor ()
      ensures addresses == None
    {
      addresses, expiry := None, 0;
    }

    method Refresh(cluster: Cluster, now: int) returns (ok: bool)
      requires Valid(cluster)
      modifies this
      ensures Valid(cluster)
      ensures ok <==> cluster(now).Some?
      ensures ok ==> addresses.Some? && expiry == now + 30
      ensures ok ==> forall ip :: ip in addresses.value <==>
        ip != "" && exists n :: 0 <= n < |cluster(now).value| && (Address(InternalIP, ip) in cluster(now).value[n] || Address(ExternalIP, ip) in cluster(now).value[n])
      ensures !ok ==> addresses == old(addresses) && expiry == old(expiry)
    {
      if cluster(now).None? {
        return false;
      }
      var nodes := cluster(now).value;
      var known: set<string> := {};
      for n := 0 to |nodes|
        invariant forall ip :: ip in known <==> Known(nodes[..n], ip)
      {
        ghost var before := known;
        for a := 0 to |nodes[n]|
          invariant forall ip :: ip in known <==> ip in before || Has(nodes[n][..a], ip)
        {
          OneMoreAddress(nodes[n], a);
          var addr := nodes[n][a];
          if (addr.kind == InternalIP || addr.kind == ExternalIP) && addr.ip != "" {
            known := known + {addr.ip};
          }
        }
        assert nodes[n][..|nodes[n]|] == nodes[n];
        OneMoreNode(nodes, n);
      }
      assert nodes[..|nodes|] == nodes;
      forall n, ip | 0 <= n < |nodes| ensures Has(nodes[n], ip) <==> ip != "" && (Address(InternalIP, ip) in nodes[n] || Address(ExternalIP, ip) in nodes[n]) {
        HasMeans(nodes[n], ip);
      }
      addresses, expiry := Some(known), now + TTL;
      return true;
    }

    /** A set that is not older than a TTL answers without a listing, also if one would fail;
        otherwise the cluster is listed and answers, or nothing is accepted. So an accepted
        address was listed at most one TTL ago, and an address that has been known for
        longer than a TTL is accepted, if the listing it may need succeeds. */
    method Validate(cluster: Cluster, ip: string, now: int) returns (ok: bool, ghost listed: int)
      requires Valid(cluster) && (addresses.Some? ==> expiry - TTL <= now)
      modifies this
      ensures Valid(cluster) && (addresses.Some? ==> expiry - TTL <= now)
      ensures ok <==> Answers(cluster, old(Expiry()), ip, now)
      ensures Expiry() == Later(cluster, old(Expiry()), now)
      ensures ok ==> now - 30 <= listed <= now && KnownAt(cluster, listed, ip)
      ensures cluster(now).Some? && (forall t :: now - TTL <= t <= now ==> KnownAt(cluster, t, ip)) ==> ok
      ensures cluster(now).Some? && (forall t :: now - TTL <= t <= now ==> !KnownAt(cluster, t, ip)) ==> !ok
    {
      if addresses.None? || now > expiry {
        var refreshed := Refresh(cluster, now);
        if !refreshed {
          return false, now;
        }
      }
      listed := expiry - TTL;
      assert KnownAt(cluster, listed, ip) <==> ip in addresses.value;
      ok := ip in addresses.value;
    }

    /** The forwarding thread's wait: poll number i is at start + 5i seconds and the
        wire is torn down after `stopAfter` polls. It ends with the first poll that
        accepts the peer, and never gives up on its own: if the node is known from
        some instant on, and the wire outlives that instant by a TTL and a poll, it
        ends with the peer accepted. */
    method WaitForValidPeer(cluster: Cluster, ip: string, start: int, stopAfter: nat) returns (ok: bool, ghost listed: int, ghost polls: nat)
      requires Valid(cluster) && (addresses.Some? ==> expiry - TTL <= start)
      modifies this
      ensures Valid(cluster)
      ensures polls <= stopAfter && (forall i :: 0 <= i < polls ==> !Accepts(cluster, old(Expiry()), ip, start, i))
      ensures if ok then Accepts(cluster, old(Expiry()), ip, start, polls)
              else polls == stopAfter && !Accepts(cluster, old(Expiry()), ip, start, stopAfter)
      ensures ok ==> start - TTL <= listed <= start + 5 * stopAfter && KnownAt(cluster, listed, ip)
      ensures forall from :: KnownFrom(cluster, from, ip) && from + 30 <= start + 5 * stopAfter ==> ok
    {
      polls := 0;
      var count, now := 0, start;
      while true
        invariant polls == count <= stopAfter && now == start + RETRY_INTERVAL * count
        invariant Valid(cluster) && (addresses.Some? ==> expiry - TTL <= now)
        invariant Expiry() == ExpiryAt(cluster, old(Expiry()), start, count)
        invariant forall i :: 0 <= i < count ==> !Accepts(cluster, old(Expiry()), ip, start, i)
        decreases stopAfter - count
      {
        ok, listed := Validate(cluster, ip, now);
        assert ok <==> Accepts(cluster, old(Expiry()), ip, start, count);
        if ok || count == stopAfter {
          forall from | KnownFrom(cluster, from, ip) && from + TTL <= now ensures ok {
            assert forall t :: now - TTL <= t <= now ==> KnownAt(cluster, t, ip);
            assert KnownAt(cluster, now, ip);
          }
          return;
        }
        count := count + 1;
        polls := count;
        now := now + RETRY_INTERVAL;
      }
    }
  }

  lemma HasMeans(addrs: seq<Address>, ip: string)
    ensures Has(addrs, ip) <==> ip != "" && (Address(InternalIP, ip) in addrs || Address(ExternalIP, ip) in addrs)
  {
    if Has(addrs, ip) {
      var a :| 0 <= a < |addrs| && Dialable(addrs[a], ip);
      assert addrs[a] in addrs && addrs[a] == Address(addrs[a].kind, ip);
    }
  }

  lemma OneMoreAddress(addrs: seq<Address>, a: nat)
    requires a < |addrs|
    ensures forall ip :: Has(addrs[..a + 1], ip) <==> Has(addrs[..a], ip) || Dialable(addrs[a], ip)
  {
    forall ip ensures Has(addrs[..a + 1], ip) <==> Has(addrs[..a], ip) || Dialable(addrs[a], ip) {
      assert addrs[..a + 1] == addrs[..a] + [addrs[a]];
      assert forall b :: 0 <= b < a ==> addrs[..a + 1][b] == addrs[..a][b];
    }
  }

  lemma OneMoreNode(nodes: seq<seq<Address>>, n: nat)
    requires n < |nodes|
    ensures forall ip :: Known(nodes[..n + 1], ip) <==> Known(nodes[..n], ip) || Has(nodes[n], ip)
  {
    forall ip ensures Known(nodes[..n + 1], ip) <==> Known(nodes[..n], ip) || Has(nodes[n], ip) {
      assert nodes[..n + 1] == nodes[..n] + [nodes[n]];
      assert forall b :: 0 <= b < n ==> nodes[..n + 1][b] == nodes[..n][b];
    }
  }
}
