// Chains of hashes in general: each link records the hash of the one before it, and
// its own hash is a keyed digest of its message. The ledger and the audit log are
// both such chains.
module HashChains {
  import opened CanonicalBytes

  datatype Link<H> = Link(prev: H, cur: H, message: Bytes)

  function Head<H>(genesis: H, links: seq<Link<H>>): H {
    if links == [] then genesis else links[|links| - 1].cur
  }

  ghost predicate Chained<H>(mac: Bytes -> H, genesis: H, links: seq<Link<H>>) {
    links != [] ==>
      && Chained(mac, genesis, links[..|links| - 1])
      && links[|links| - 1].prev == Head(genesis, links[..|links| - 1])
      && links[|links| - 1].cur == mac(links[|links| - 1].message)
  }

  // The digest told these particular messages apart. (No digest of fixed length does
  // so for all messages.)
  ghost predicate NoCollision<H>(mac: Bytes -> H, a: seq<Link<H>>, b: seq<Link<H>>) {
    forall i, j :: 0 <= i < |a| && 0 <= j < |b| && mac(a[i].message) == mac(b[j].message) ==> a[i].message == b[j].message
  }

  ghost predicate NeverGenesis<H>(mac: Bytes -> H, genesis: H, a: seq<Link<H>>) {
    forall i :: 0 <= i < |a| ==> mac(a[i].message) != genesis
  }

  // A message contains the previous hash, decodably.
  ghost predicate MessagesHoldPrev<H>(a: seq<Link<H>>, b: seq<Link<H>>) {
    forall i, j :: 0 <= i < |a| && 0 <= j < |b| && a[i].message == b[j].message ==> a[i].prev == b[j].prev
  }

  // The head hash commits to the whole history.
  lemma {:induction false} HeadCommits<H>(mac: Bytes -> H, genesis: H, a: seq<Link<H>>, b: seq<Link<H>>)
    requires Chained(mac, genesis, a) && Chained(mac, genesis, b)
    requires NoCollision(mac, a, b) && NeverGenesis(mac, genesis, a) && NeverGenesis(mac, genesis, b) && MessagesHoldPrev(a, b)
    requires Head(genesis, a) == Head(genesis, b)
    ensures a == b
    decreases |a|
  {
    if a != [] && b != [] {
      var m, n := |a| - 1, |b| - 1;
      assert a[m].message == b[n].message;
      HeadCommits(mac, genesis, a[..m], b[..n]);
      assert a == a[..m] + [a[m]] && b == b[..n] + [b[n]];
    }
  }

  // Any beginning of a chain is a chain, so a chain alone does not show that nothing
  // was cut off its end.
  lemma {:induction false} PrefixIsChained<H>(mac: Bytes -> H, genesis: H, a: seq<Link<H>>, k: nat)
    requires Chained(mac, genesis, a) && k <= |a|
    ensures Chained(mac, genesis, a[..k])
  {
    if k < |a| {
      PrefixIsChained(mac, genesis, a[..|a| - 1], k);
      assert a[..|a| - 1][..k] == a[..k];
    } else {
      assert a[..k] == a;
    }
  }

  // But it does change the head.
  lemma TruncationChangesHead<H>(mac: Bytes -> H, genesis: H, a: seq<Link<H>>, k: nat)
    requires Chained(mac, genesis, a) && k < |a|
    requires NoCollision(mac, a, a) && NeverGenesis(mac, genesis, a) && MessagesHoldPrev(a, a)
    ensures Head(genesis, a[..k]) != Head(genesis, a)
  {
    PrefixIsChained(mac, genesis, a, k);
    if Head(genesis, a[..k]) == Head(genesis, a) {
      HeadCommits(mac, genesis, a[..k], a);
    }
  }

  lemma ChainExtends<H>(mac: Bytes -> H, genesis: H, a: seq<Link<H>>, l: Link<H>)
    requires Chained(mac, genesis, a) && l.prev == Head(genesis, a) && l.cur == mac(l.message)
    ensures Chained(mac, genesis, a + [l])
  {
    assert (a + [l])[..|a|] == a;
  }

  // Digests of one length make every recorded previous hash that long.
  lemma {:induction false} PrevLengths(mac: Bytes -> Bytes, genesis: Bytes, a: seq<Link<Bytes>>, n: nat)
    requires Chained(mac, genesis, a) && |genesis| == n && forall m :: |mac(m)| == n
    ensures forall i :: 0 <= i < |a| ==> |a[i].prev| == n
  {
    if a == [] {
    } else {
      PrevLengths(mac, genesis, a[..|a| - 1], n);
      assert forall i :: 0 <= i < |a| - 1 ==> a[i] == a[..|a| - 1][i];
      if |a| > 1 { assert a[|a| - 2].cur == mac(a[|a| - 2].message); }
    }
  }
}
