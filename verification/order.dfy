/** Shared result types, bounded counters, and the ordering that every Broker heap uses. */
module Order {

  datatype Option<+T> = None | Some(value: T)

  datatype Result<+T, +E> = Ok(value: T) | Err(error: E)

  /** Counters and timestamps are 64-bit in the Broker; a counter at this value cannot advance. */
  const U64_MAX: nat := 0xFFFF_FFFF_FFFF_FFFF

  /** A heap entry.  Ready and completed entries are pairs (their tag is 0); a lease expiration
      carries the lease epoch as its tag; a stale member is (heartbeat, group, member). */
  datatype Key = Key(at: nat, id: nat, tag: nat)

  /** Lexicographic order: the order in which a heap of reversed tuples pops its entries. */
  predicate Below(a: Key, b: Key) {
    a.at < b.at || (a.at == b.at && (a.id < b.id || (a.id == b.id && a.tag < b.tag)))
  }

  predicate IsLeast(k: Key, s: set<Key>) {
    k in s && forall j | j in s :: j == k || Below(k, j)
  }

  lemma {:induction false} LeastExists(s: set<Key>)
    requires s != {}
    ensures exists k :: IsLeast(k, s)
  {
    var x :| x in s;
    if s == {x} {
      assert IsLeast(x, s);
    } else {
      var rest := s - {x};
      LeastExists(rest);
      var y :| IsLeast(y, rest);
      assert s == rest + {x};
      if Below(x, y) {
        assert IsLeast(x, s);
      } else {
        assert IsLeast(y, s);
      }
    }
  }

  function MinKey(s: set<Key>): (k: Key)
    requires s != {}
    ensures IsLeast(k, s)
  {
    LeastExists(s);
    var k :| IsLeast(k, s) && k in s;
    k
  }

  /** The first `n` keys of `s` in order, or all of `s` when it is smaller. */
  function FirstN(s: set<Key>, n: nat): (r: set<Key>)
    ensures r <= s
    ensures |r| == if |s| <= n then |s| else n
    ensures forall a, b :: a in r && b in s && b !in r ==> Below(a, b)
    decreases n
  {
    if n == 0 || s == {} then {}
    else
      var k := MinKey(s);
      var rest := s - {k};
      assert |rest| == |s| - 1;
      {k} + FirstN(rest, n - 1)
  }

  /** `FirstN` is the only subset of that size lying wholly below what it leaves out. */
  lemma {:induction false} FirstNUnique(s: set<Key>, n: nat, r: set<Key>)
    requires r <= s
    requires |r| == if |s| <= n then |s| else n
    requires forall a, b :: a in r && b in s && b !in r ==> Below(a, b)
    ensures r == FirstN(s, n)
  {
    var f := FirstN(s, n);
    if r != f {
      SameSizeDiffer(r, f);
      assert false;
    }
  }

  lemma SameSizeDiffer(a: set<Key>, b: set<Key>)
    requires |a| == |b| && a != b
    ensures exists x :: x in a && x !in b
    ensures exists x :: x in b && x !in a
  {
    if a <= b {
      SubsetSmaller(a, b);
    }
    if b <= a {
      SubsetSmaller(b, a);
    }
  }

  lemma SubsetSmaller<T>(a: set<T>, b: set<T>)
    requires a <= b
    ensures |a| <= |b|
    ensures a != b ==> |a| < |b|
  {
    assert b == a + (b - a);
    assert |b| == |a| + |b - a|;
  }

  predicate IsLeastId(k: nat, s: set<nat>) {
    k in s && forall j | j in s :: k <= j
  }

  /** Deterministic iteration over a set of identifiers takes the least one first. */
  function MinId(s: set<nat>): (k: nat)
    requires s != {}
    ensures IsLeastId(k, s)
  {
    LeastIdExists(s);
    var k :| IsLeastId(k, s) && k in s;
    k
  }

  lemma MinIdIn(s: set<nat>)
    requires s != {}
    ensures MinId(s) in s
  {}

  lemma {:induction false} LeastIdExists(s: set<nat>)
    requires s != {}
    ensures exists k :: IsLeastId(k, s)
  {
    var x :| x in s;
    if s == {x} {
      assert IsLeastId(x, s);
    } else {
      var rest := s - {x};
      LeastIdExists(rest);
      var y :| IsLeastId(y, rest);
      assert s == rest + {x};
      assert IsLeastId(if x <= y then x else y, s);
    }
  }

  function Support(h: multiset<Key>): (s: set<Key>)
    ensures s == {} <==> h == multiset{}
  {
    var s := set k | k in h;
    assert h != multiset{} ==> exists k :: k in h && k in s;
    s
  }

  /** The priority queue of the standard library: remove the least entry. */
  method PopLeast(h: multiset<Key>) returns (k: Key, rest: multiset<Key>)
    requires h != multiset{}
    ensures k == MinKey(Support(h))
    ensures rest == h - multiset{k}
  {
    k := MinKey(Support(h));
    rest := h - multiset{k};
  }

  /** Heaps and counters are kept per namespace; an absent key reads as empty or zero. */
  function HeapAt(h: map<nat, multiset<Key>>, ns: nat): multiset<Key> {
    if ns in h then h[ns] else multiset{}
  }

  function CountAt(c: map<nat, nat>, ns: nat): nat {
    if ns in c then c[ns] else 0
  }

  function Push(h: map<nat, multiset<Key>>, ns: nat, k: Key): map<nat, multiset<Key>> {
    h[ns := HeapAt(h, ns) + multiset{k}]
  }

  lemma PushCounts(h: map<nat, multiset<Key>>, ns: nat, k: Key)
    ensures forall n: nat, j: Key ::
              HeapAt(Push(h, ns, k), n)[j] == HeapAt(h, n)[j] + if n == ns && j == k then 1 else 0
  {}

  lemma PushHas(h: map<nat, multiset<Key>>, ns: nat, k: Key, n: nat, j: Key)
    ensures j in HeapAt(Push(h, ns, k), n) <==> j in HeapAt(h, n) || (n == ns && j == k)
  {}
}
