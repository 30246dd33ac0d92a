// Lists of three-part records, each written with colons inside and joined by semicolons
// (the legs in src/domain/ledger/hash_chain.py). They are read off the back, so only the
// first part must be free of semicolons, and only the other two of colons.
module JoinedParts {
  import opened CanonicalBytes

  datatype Part = Part(head: Bytes, middle: Bytes, last: Bytes)

  function PartBytes(p: Part): Bytes {
    Field(p.head, COLON, Field(p.middle, COLON, p.last))
  }

  predicate Readable(p: Part) {
    SEMICOLON !in p.head && COLON !in p.middle && COLON !in p.last
  }

  // b";".join
  function Join(parts: seq<Bytes>): Bytes {
    if parts == [] then [] else if |parts| == 1 then parts[0] else Field(parts[0], SEMICOLON, Join(parts[1..]))
  }

  lemma {:induction false} JoinAppend(parts: seq<Bytes>, p: Bytes)
    ensures Join(parts + [p]) == if parts == [] then p else Field(Join(parts), SEMICOLON, p)
  {
    if parts == [] {
      assert parts + [p] == [p];
    } else {
      JoinAppend(parts[1..], p);
      assert (parts + [p])[1..] == parts[1..] + [p];
      if |parts| > 1 { FieldsAssociate(parts[0], SEMICOLON, Join(parts[1..]), SEMICOLON, p); }
    }
  }

  function Encoded(ps: seq<Part>): seq<Bytes> {
    seq(|ps|, i requires 0 <= i < |ps| => PartBytes(ps[i]))
  }

  // What stands before the middle of the part that follows some others.
  function UpToHead(front: Bytes, others: bool, head: Bytes): Bytes {
    if others then Field(front, SEMICOLON, head) else head
  }

  function WithLast(front: Bytes, others: bool, p: Part): (bytes: Bytes)
    ensures bytes != []
  {
    Field(Field(UpToHead(front, others, p.head), COLON, p.middle), COLON, p.last)
  }

  // The first n parts as they are read.
  function Joined(ps: seq<Part>, n: nat): Bytes
    requires n <= |ps|
  {
    if n == 0 then [] else WithLast(Joined(ps, n - 1), n > 1, ps[n - 1])
  }

  lemma LastIsAtTheBack(front: Bytes, others: bool, p: Part)
    ensures (if others then Field(front, SEMICOLON, PartBytes(p)) else PartBytes(p)) == WithLast(front, others, p)
  {
    FieldsAssociate(p.head, COLON, p.middle, COLON, p.last);
    FieldsAssociate(front, SEMICOLON, Field(p.head, COLON, p.middle), COLON, p.last);
    FieldsAssociate(front, SEMICOLON, p.head, COLON, p.middle);
  }

  lemma EncodedGrows(ps: seq<Part>, n: nat)
    requires n < |ps|
    ensures Encoded(ps)[..n + 1] == Encoded(ps)[..n] + [PartBytes(ps[n])]
  {
  }

  lemma {:induction false} JoinReadsBackwards(ps: seq<Part>, n: nat)
    requires n <= |ps|
    ensures Join(Encoded(ps)[..n]) == Joined(ps, n)
  {
    if n > 0 {
      JoinReadsBackwards(ps, n - 1);
      EncodedGrows(ps, n - 1);
      JoinAppend(Encoded(ps)[..n - 1], PartBytes(ps[n - 1]));
      LastIsAtTheBack(Joined(ps, n - 1), n > 1, ps[n - 1]);
    }
  }

  lemma HeadSplits(f: Bytes, x: bool, a: Bytes, g: Bytes, y: bool, b: Bytes)
    requires SEMICOLON !in a && SEMICOLON !in b && UpToHead(f, x, a) == UpToHead(g, y, b)
    ensures a == b && x == y && (x ==> f == g)
  {
    assert x ==> UpToHead(f, x, a)[|f|] == SEMICOLON;
    assert y ==> UpToHead(g, y, b)[|g|] == SEMICOLON;
    if x && y {
      LastFieldSplits(f, a, g, b, SEMICOLON);
    }
  }

  lemma LastSplits(f: Bytes, x: bool, p: Part, g: Bytes, y: bool, q: Part)
    requires Readable(p) && Readable(q) && WithLast(f, x, p) == WithLast(g, y, q)
    ensures p == q && x == y && (x ==> f == g)
  {
    var u, v := UpToHead(f, x, p.head), UpToHead(g, y, q.head);
    LastFieldSplits(Field(u, COLON, p.middle), p.last, Field(v, COLON, q.middle), q.last, COLON);
    LastFieldSplits(u, p.middle, v, q.middle, COLON);
    HeadSplits(f, x, p.head, g, y, q.head);
  }

  predicate AllReadable(ps: seq<Part>) {
    forall p :: p in ps ==> Readable(p)
  }

  lemma {:induction false} JoinedSplitsOnce(ps: seq<Part>, m: nat, qs: seq<Part>, n: nat)
    requires 0 < m <= |ps| && 0 < n <= |qs| && Joined(ps, m) == Joined(qs, n)
    requires AllReadable(ps) && AllReadable(qs)
    ensures ps[m - 1] == qs[n - 1] && Joined(ps, m - 1) == Joined(qs, n - 1)
  {
    LastSplits(Joined(ps, m - 1), m > 1, ps[m - 1], Joined(qs, n - 1), n > 1, qs[n - 1]);
  }

  lemma {:induction false} JoinedTellsTheNumber(ps: seq<Part>, m: nat, qs: seq<Part>, n: nat)
    requires m <= |ps| && n <= |qs| && Joined(ps, m) == Joined(qs, n)
    requires AllReadable(ps) && AllReadable(qs)
    ensures m == n
  {
    if m > 0 && n > 0 {
      JoinedSplitsOnce(ps, m, qs, n);
      JoinedTellsTheNumber(ps, m - 1, qs, n - 1);
    }
  }

  lemma {:induction false} JoinedTellsThePart(ps: seq<Part>, qs: seq<Part>, n: nat, i: nat)
    requires i < n <= |ps| && n <= |qs| && Joined(ps, n) == Joined(qs, n)
    requires AllReadable(ps) && AllReadable(qs)
    ensures ps[i] == qs[i]
  {
    JoinedSplitsOnce(ps, n, qs, n);
    if i < n - 1 { JoinedTellsThePart(ps, qs, n - 1, i); }
  }

  // Readable parts are told apart by their joined encoding.
  lemma PartsDecode(ps: seq<Part>, qs: seq<Part>)
    requires AllReadable(ps) && AllReadable(qs) && Join(Encoded(ps)) == Join(Encoded(qs))
    ensures ps == qs
  {
    assert Encoded(ps)[..|ps|] == Encoded(ps) && Encoded(qs)[..|qs|] == Encoded(qs);
    JoinReadsBackwards(ps, |ps|);
    JoinReadsBackwards(qs, |qs|);
    JoinedTellsTheNumber(ps, |ps|, qs, |qs|);
    forall i | 0 <= i < |ps| ensures ps[i] == qs[i] {
      JoinedTellsThePart(ps, qs, |ps|, i);
    }
  }
}
