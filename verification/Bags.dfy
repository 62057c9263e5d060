/** Finite bags and sums over row sequences.

    The scripts modelled here read tables as lists of rows and then filter, group and
    total them.  This module holds the folds those loops compute, and the facts that make
    them independent of the order in which the rows arrive. */
module Bags {

  datatype Option<+T> = None | Some(value: T)

  // ---------------------------------------------------------------- folds over rows

  /** The rows satisfying `p`, in their original order. */
  function Where<A(!new)>(s: seq<A>, p: A -> bool): (r: seq<A>)
    ensures |r| <= |s|
    ensures forall x :: x in r ==> x in s && p(x)
  {
    if s == [] then []
    else
      var rest := Where(s[..|s| - 1], p);
      if p(s[|s| - 1]) then rest + [s[|s| - 1]] else rest
  }

  /** The sum of `f` over the rows. */
  function Total<A(!new)>(s: seq<A>, f: A -> int): int {
    if s == [] then 0 else Total(s[..|s| - 1], f) + f(s[|s| - 1])
  }

  /** The bag union of `f` over the rows. */
  function Collect<A(!new), B(==, !new)>(s: seq<A>, f: A -> multiset<B>): multiset<B> {
    if s == [] then multiset{} else Collect(s[..|s| - 1], f) + f(s[|s| - 1])
  }

  /** The concatenation of `f` over the rows. */
  function Concat<A(!new), B(!new)>(s: seq<A>, f: A -> seq<B>): seq<B> {
    if s == [] then [] else Concat(s[..|s| - 1], f) + f(s[|s| - 1])
  }

  /** First occurrences, in order: the key order of a dictionary filled from `s`. */
  function Distinct<K(==, !new)>(s: seq<K>): (r: seq<K>)
    ensures forall k :: k in r <==> k in s
  {
    if s == [] then []
    else
      var rest := Distinct(s[..|s| - 1]);
      if s[|s| - 1] in rest then rest else rest + [s[|s| - 1]]
  }

  function Map<A(!new), B(!new)>(s: seq<A>, f: A -> B): (r: seq<B>)
    ensures |r| == |s|
    ensures forall i :: 0 <= i < |s| ==> r[i] == f(s[i])
  {
    seq(|s|, i requires 0 <= i < |s| => f(s[i]))
  }

  /** A dictionary filled from `s`: a later row replaces an earlier one with the same key. */
  function Index<K(==, !new), V(!new)>(s: seq<V>, key: V -> K): (m: map<K, V>)
    ensures forall k :: k in m ==> m[k] in s && key(m[k]) == k
    ensures forall v :: v in s ==> key(v) in m
  {
    if s == [] then map[]
    else Index(s[..|s| - 1], key)[key(s[|s| - 1]) := s[|s| - 1]]
  }

  ghost predicate UniqueKeys<K(!new), V(!new)>(s: seq<V>, key: V -> K) {
    forall i, j :: 0 <= i < j < |s| ==> key(s[i]) != key(s[j])
  }

  // ---------------------------------------------------------------- one more row

  lemma TakeOne<A(!new)>(s: seq<A>, i: nat)
    requires i < |s|
    ensures s[..i + 1][..i] == s[..i] && s[..i + 1][i] == s[i] && |s[..i + 1]| == i + 1
  {
  }

  lemma TakeAll<A(!new)>(s: seq<A>)
    ensures s[..|s|] == s
  {
  }

  lemma CollectOneMore<A(!new), B(!new)>(s: seq<A>, i: nat, f: A -> multiset<B>)
    requires i < |s|
    ensures Collect(s[..i + 1], f) == Collect(s[..i], f) + f(s[i])
  {
    TakeOne(s, i);
  }

  lemma ConcatOneMore<A(!new), B(!new)>(s: seq<A>, i: nat, f: A -> seq<B>)
    requires i < |s|
    ensures Concat(s[..i + 1], f) == Concat(s[..i], f) + f(s[i])
  {
    TakeOne(s, i);
  }

  // ---------------------------------------------------------------- counting

  lemma {:induction false} WhereCount<A(!new)>(s: seq<A>, p: A -> bool, x: A)
    ensures multiset(Where(s, p))[x] == if p(x) then multiset(s)[x] else 0
  {
    if s != [] {
      var front, last := s[..|s| - 1], s[|s| - 1];
      assert s == front + [last];
      WhereCount(front, p, x);
    }
  }

  lemma {:induction false} DistinctCount<K(!new)>(s: seq<K>, k: K)
    ensures multiset(Distinct(s))[k] == if k in s then 1 else 0
  {
    if s != [] {
      var front, last := s[..|s| - 1], s[|s| - 1];
      assert s == front + [last];
      DistinctCount(front, k);
    }
  }

  lemma {:induction false} CollectCount<A(!new), B(!new)>(s: seq<A>, f: A -> multiset<B>, b: B)
    ensures Collect(s, f)[b] == Total(s, a => f(a)[b])
  {
    if s != [] {
      CollectCount(s[..|s| - 1], f, b);
      TotalSame(s[..|s| - 1], a => f(a)[b], a => f(a)[b]);
    }
  }

  lemma {:induction false} CollectEmpty<A(!new), B(!new)>(s: seq<A>, f: A -> multiset<B>)
    ensures Collect(s, f) == multiset{} <==> forall x :: x in s ==> f(x) == multiset{}
  {
    if s != [] {
      var front, last := s[..|s| - 1], s[|s| - 1];
      assert s == front + [last];
      CollectEmpty(front, f);
      assert forall x :: x in s <==> x in front || x == last;
      if Collect(s, f) == multiset{} {
        assert Collect(front, f) <= Collect(s, f) && f(last) <= Collect(s, f);
      }
    }
  }

  lemma {:induction false} DistinctUnique<K(!new)>(s: seq<K>)
    ensures forall i, j :: 0 <= i < j < |Distinct(s)| ==> Distinct(s)[i] != Distinct(s)[j]
  {
    if s != [] {
      DistinctUnique(s[..|s| - 1]);
    }
  }

  lemma {:induction false} DistinctOfUnique<K(!new)>(s: seq<K>)
    requires forall i, j :: 0 <= i < j < |s| ==> s[i] != s[j]
    ensures Distinct(s) == s
  {
    if s != [] {
      var front, last := s[..|s| - 1], s[|s| - 1];
      assert s == front + [last];
      DistinctOfUnique(front);
      assert last !in front;
    }
  }

  // ---------------------------------------------------------------- congruence

  lemma {:induction false} TotalSame<A(!new)>(s: seq<A>, f: A -> int, g: A -> int)
    requires forall x :: x in s ==> f(x) == g(x)
    ensures Total(s, f) == Total(s, g)
  {
    if s != [] {
      var front, last := s[..|s| - 1], s[|s| - 1];
      assert s == front + [last];
      TotalSame(front, f, g);
    }
  }

  lemma {:induction false} TotalAdds<A(!new)>(s: seq<A>, f: A -> int, g: A -> int, h: A -> int)
    requires forall x :: x in s ==> h(x) == f(x) + g(x)
    ensures Total(s, h) == Total(s, f) + Total(s, g)
  {
    if s != [] {
      var front, last := s[..|s| - 1], s[|s| - 1];
      assert s == front + [last];
      TotalAdds(front, f, g, h);
    }
  }

  lemma {:induction false} CollectSame<A(!new), B(!new)>(s: seq<A>, f: A -> multiset<B>, g: A -> multiset<B>)
    requires forall x :: x in s ==> f(x) == g(x)
    ensures Collect(s, f) == Collect(s, g)
  {
    if s != [] {
      var front, last := s[..|s| - 1], s[|s| - 1];
      assert s == front + [last];
      CollectSame(front, f, g);
    }
  }

  lemma {:induction false} WhereTotal<A(!new)>(s: seq<A>, p: A -> bool, f: A -> int, g: A -> int)
    requires forall x :: x in s ==> g(x) == if p(x) then f(x) else 0
    ensures Total(Where(s, p), f) == Total(s, g)
  {
    if s != [] {
      var front, last := s[..|s| - 1], s[|s| - 1];
      assert s == front + [last];
      WhereTotal(front, p, f, g);
      if p(last) {
        assert (Where(front, p) + [last])[..|Where(front, p)|] == Where(front, p);
      }
    }
  }

  lemma {:induction false} TotalSplit<A(!new)>(a: seq<A>, b: seq<A>, f: A -> int)
    ensures Total(a + b, f) == Total(a, f) + Total(b, f)
  {
    if b == [] {
      assert a + b == a;
    } else {
      assert (a + b)[..|a + b| - 1] == a + b[..|b| - 1];
      TotalSplit(a, b[..|b| - 1], f);
    }
  }

  lemma {:induction false} ConcatTotal<A(!new), B(!new)>(s: seq<A>, f: A -> seq<B>, g: B -> int, h: A -> int)
    requires forall x :: x in s ==> h(x) == Total(f(x), g)
    ensures Total(Concat(s, f), g) == Total(s, h)
  {
    if s != [] {
      var front, last := s[..|s| - 1], s[|s| - 1];
      assert s == front + [last];
      ConcatTotal(front, f, g, h);
      TotalSplit(Concat(front, f), f(last), g);
    }
  }

  lemma {:induction false} ConcatMember<A(!new), B(!new)>(s: seq<A>, f: A -> seq<B>, b: B)
    ensures b in Concat(s, f) <==> exists a :: a in s && b in f(a)
  {
    if s != [] {
      var front, last := s[..|s| - 1], s[|s| - 1];
      assert s == front + [last];
      ConcatMember(front, f, b);
      assert last in s;
    }
  }

  lemma {:induction false} CollectMember<A(!new), B(!new)>(s: seq<A>, f: A -> multiset<B>, b: B)
    ensures b in Collect(s, f) <==> exists a :: a in s && b in f(a)
  {
    if s != [] {
      var front, last := s[..|s| - 1], s[|s| - 1];
      assert s == front + [last];
      CollectMember(front, f, b);
      assert last in s;
    }
  }

  /** Collecting one item a row is listing them. */
  lemma {:induction false} CollectOfMap<A(!new), B(!new)>(s: seq<A>, f: A -> B, g: A -> multiset<B>)
    requires forall x :: x in s ==> g(x) == multiset{f(x)}
    ensures Collect(s, g) == multiset(Map(s, f))
  {
    if s != [] {
      var front, last := s[..|s| - 1], s[|s| - 1];
      assert s == front + [last];
      CollectOfMap(front, f, g);
      assert Map(s, f) == Map(front, f) + [f(last)];
    }
  }

  lemma {:induction false} WhereSwap<A(!new)>(s: seq<A>, p: A -> bool, q: A -> bool)
    ensures Where(Where(s, p), q) == Where(Where(s, q), p)
  {
    if s != [] {
      var front, last := s[..|s| - 1], s[|s| - 1];
      WhereSwap(front, p, q);
      assert p(last) ==> (Where(front, p) + [last])[..|Where(front, p)|] == Where(front, p);
      assert q(last) ==> (Where(front, q) + [last])[..|Where(front, q)|] == Where(front, q);
    }
  }

  /** The bag of a concatenation, row by row. */
  lemma {:induction false} ConcatBag<A(!new), B(!new)>(s: seq<A>, f: A -> seq<B>, g: A -> multiset<B>)
    requires forall x :: x in s ==> g(x) == multiset(f(x))
    ensures multiset(Concat(s, f)) == Collect(s, g)
  {
    if s != [] {
      var front, last := s[..|s| - 1], s[|s| - 1];
      assert s == front + [last];
      ConcatBag(front, f, g);
    }
  }

  lemma {:induction false} WhereMember<A(!new)>(s: seq<A>, p: A -> bool, x: A)
    ensures x in Where(s, p) <==> x in s && p(x)
  {
    WhereCount(s, p, x);
    assert x in Where(s, p) <==> multiset(Where(s, p))[x] > 0;
    assert x in s <==> multiset(s)[x] > 0;
  }

  lemma {:induction false} WhereNone<A(!new)>(s: seq<A>, p: A -> bool)
    requires forall x :: x in s ==> !p(x)
    ensures Where(s, p) == []
  {
    if s != [] {
      var front, last := s[..|s| - 1], s[|s| - 1];
      assert s == front + [last];
      WhereNone(front, p);
    }
  }

  lemma {:induction false} WhereAll<A(!new)>(s: seq<A>, p: A -> bool)
    requires forall x :: x in s ==> p(x)
    ensures Where(s, p) == s
  {
    if s != [] {
      var front, last := s[..|s| - 1], s[|s| - 1];
      assert s == front + [last];
      WhereAll(front, p);
    }
  }

  lemma WhereOneMore<A(!new)>(front: seq<A>, last: A, p: A -> bool, f: A -> int)
    ensures Where(front + [last], p) == if p(last) then Where(front, p) + [last] else Where(front, p)
    ensures Total(Where(front + [last], p), f) == Total(Where(front, p), f) + if p(last) then f(last) else 0
  {
    assert (front + [last])[..|front + [last]| - 1] == front;
    if p(last) {
      TotalSplit(Where(front, p), [last], f);
      assert [last][..0] == [];
      assert Total([last], f) == f(last);
    }
  }

  lemma {:induction false} WhereSame<A(!new)>(s: seq<A>, p: A -> bool, q: A -> bool)
    requires forall x :: x in s ==> p(x) == q(x)
    ensures Where(s, p) == Where(s, q)
  {
    if s != [] {
      var front, last := s[..|s| - 1], s[|s| - 1];
      assert s == front + [last];
      WhereSame(front, p, q);
    }
  }

  // ---------------------------------------------------------------- order does not matter

  lemma {:induction false} TotalRemove<A(!new)>(s: seq<A>, i: nat, f: A -> int)
    requires i < |s|
    ensures Total(s, f) == Total(s[..i] + s[i + 1..], f) + f(s[i])
  {
    assert s == s[..i] + ([s[i]] + s[i + 1..]);
    TotalSplit(s[..i], [s[i]] + s[i + 1..], f);
    TotalSplit([s[i]], s[i + 1..], f);
    TotalSplit(s[..i], s[i + 1..], f);
    assert [s[i]][..0] == [];
    assert Total([s[i]], f) == f(s[i]);
  }

  lemma RemoveOne<A(!new)>(t: seq<A>, i: nat)
    requires i < |t|
    ensures multiset(t[..i] + t[i + 1..]) == multiset(t) - multiset{t[i]}
  {
    assert t == t[..i] + [t[i]] + t[i + 1..];
  }

  lemma {:induction false} TotalPermuted<A(!new)>(s: seq<A>, t: seq<A>, f: A -> int)
    requires multiset(s) == multiset(t)
    ensures Total(s, f) == Total(t, f)
  {
    if s == [] {
      assert |multiset(t)| == |t|;
    } else {
      var last := s[|s| - 1];
      assert last in multiset(s);
      var i :| 0 <= i < |t| && t[i] == last;
      RemoveOne(s, |s| - 1);
      RemoveOne(t, i);
      assert s[..|s| - 1] + s[|s| - 1 + 1..] == s[..|s| - 1];
      TotalPermuted(s[..|s| - 1], t[..i] + t[i + 1..], f);
      TotalRemove(t, i, f);
    }
  }

  lemma {:induction false} CollectPermuted<A(!new), B(!new)>(s: seq<A>, t: seq<A>, f: A -> multiset<B>)
    requires multiset(s) == multiset(t)
    ensures Collect(s, f) == Collect(t, f)
  {
    forall b ensures Collect(s, f)[b] == Collect(t, f)[b] {
      CollectCount(s, f, b);
      CollectCount(t, f, b);
      TotalSame(t, a => f(a)[b], a => f(a)[b]);
      TotalPermuted(s, t, a => f(a)[b]);
    }
  }

  lemma {:induction false} WherePermuted<A(!new)>(s: seq<A>, t: seq<A>, p: A -> bool)
    requires multiset(s) == multiset(t)
    ensures multiset(Where(s, p)) == multiset(Where(t, p))
    ensures |Where(s, p)| == |Where(t, p)|
  {
    forall x ensures multiset(Where(s, p))[x] == multiset(Where(t, p))[x] {
      WhereCount(s, p, x);
      WhereCount(t, p, x);
    }
    BagLength(Where(s, p), Where(t, p));
  }

  lemma BagLength<A(!new)>(s: seq<A>, t: seq<A>)
    requires multiset(s) == multiset(t)
    ensures |s| == |t|
    ensures forall x :: x in s <==> x in t
  {
    assert |multiset(s)| == |s| && |multiset(t)| == |t|;
    assert forall x :: x in s <==> x in multiset(s);
    assert forall x :: x in t <==> x in multiset(t);
  }

  lemma {:induction false} DistinctPermuted<K(!new)>(s: seq<K>, t: seq<K>)
    requires forall x :: x in s <==> x in t
    ensures multiset(Distinct(s)) == multiset(Distinct(t))
  {
    forall k ensures multiset(Distinct(s))[k] == multiset(Distinct(t))[k] {
      DistinctCount(s, k);
      DistinctCount(t, k);
    }
  }

  lemma UniqueLookup<K(!new), V(!new)>(s: seq<V>, key: V -> K, v: V)
    requires UniqueKeys(s, key) && v in s
    ensures key(v) in Index(s, key) && Index(s, key)[key(v)] == v
  {
    var w := Index(s, key)[key(v)];
    var i :| 0 <= i < |s| && s[i] == v;
    var j :| 0 <= j < |s| && s[j] == w;
    assert i == j;
  }

  lemma IndexPermuted<K(!new), V(!new)>(s: seq<V>, t: seq<V>, key: V -> K)
    requires multiset(s) == multiset(t) && UniqueKeys(s, key) && UniqueKeys(t, key)
    ensures Index(s, key) == Index(t, key)
  {
    BagLength(s, t);
    forall k | k in Index(s, key) ensures k in Index(t, key) && Index(t, key)[k] == Index(s, key)[k] {
      UniqueLookup(t, key, Index(s, key)[k]);
    }
    forall k | k in Index(t, key) ensures k in Index(s, key) {
      UniqueLookup(s, key, Index(t, key)[k]);
    }
  }

  lemma {:induction false} UniqueOnce<K(!new), V(!new)>(s: seq<V>, key: V -> K, v: V)
    requires UniqueKeys(s, key)
    ensures multiset(s)[v] <= 1
  {
    if s != [] {
      var front, last := s[..|s| - 1], s[|s| - 1];
      assert s == front + [last];
      UniqueOnce(front, key, v);
    }
  }

  lemma TwiceCounted<V(!new)>(t: seq<V>, i: nat, j: nat)
    requires i < j < |t| && t[i] == t[j]
    ensures multiset(t)[t[i]] >= 2
  {
    assert t == t[..j] + [t[j]] + t[j + 1..];
    assert t[..j][i] == t[j];
  }

  /** Unique keys are a property of the bag of rows. */
  lemma UniquePermuted<K(!new), V(!new)>(s: seq<V>, t: seq<V>, key: V -> K)
    requires multiset(s) == multiset(t) && UniqueKeys(s, key)
    ensures UniqueKeys(t, key)
  {
    BagLength(s, t);
    forall i, j | 0 <= i < j < |t| ensures key(t[i]) != key(t[j]) {
      assert t[i] in t && t[j] in t;
      var p :| 0 <= p < |s| && s[p] == t[i];
      var q :| 0 <= q < |s| && s[q] == t[j];
      UniqueOnce(s, key, t[i]);
      if t[i] == t[j] {
        TwiceCounted(t, i, j);
      }
    }
  }

  // ---------------------------------------------------------------- double counting

  /** Summing an indicator over rows with unique keys picks out the one matching row. */
  lemma {:induction false} IndicatorTotal<K(!new), V(!new)>(s: seq<V>, key: V -> K, k: K, amount: int, f: V -> int)
    requires UniqueKeys(s, key)
    requires forall v :: v in s ==> f(v) == if key(v) == k then amount else 0
    ensures Total(s, f) == if exists v :: v in s && key(v) == k then amount else 0
  {
    if s != [] {
      var front, last := s[..|s| - 1], s[|s| - 1];
      assert s == front + [last];
      assert forall v :: v in s <==> v in front || v == last;
      IndicatorTotal(front, key, k, amount, f);
      if key(last) == k {
        assert last in s;
        forall v | v in front ensures key(v) != k {
          var i :| 0 <= i < |front| && front[i] == v;
          assert key(s[i]) != key(s[|s| - 1]);
        }
      } else if exists v :: v in s && key(v) == k {
        var v :| v in s && key(v) == k;
        assert v in front;
      }
    }
  }

  /** The rows carrying one label. */
  function Labelled<K(==, !new), R(!new)>(tag: R -> K, k: K): R -> bool {
    (r: R) => tag(r) == k
  }

  /** Grouping rows under an index of unique keys that covers their labels loses nothing. */
  lemma {:induction false} PartitionTotal<K(!new), V(!new), R(!new)>(
    outer: seq<V>, key: V -> K, inner: seq<R>, tag: R -> K, g: R -> int, group: V -> int)
    requires UniqueKeys(outer, key)
    requires forall r :: r in inner ==> exists v :: v in outer && key(v) == tag(r)
    requires forall v :: v in outer ==> group(v) == Total(Where(inner, Labelled(tag, key(v))), g)
    ensures Total(outer, group) == Total(inner, g)
    decreases inner
  {
    if inner == [] {
      TotalZero(outer, group);
    } else {
      var front, last := inner[..|inner| - 1], inner[|inner| - 1];
      assert inner == front + [last];
      var before := (v: V) => Total(Where(front, Labelled(tag, key(v))), g);
      var extra := (v: V) => if key(v) == tag(last) then g(last) else 0;
      PartitionTotal(outer, key, front, tag, g, before);
      IndicatorTotal(outer, key, tag(last), g(last), extra);
      assert last in inner;
      forall v | v in outer ensures group(v) == before(v) + extra(v) {
        var p := Labelled(tag, key(v));
        WhereOneMore(front, last, p, g);
      }
      TotalAdds(outer, before, extra, group);
    }
  }

  lemma {:induction false} TotalZero<V(!new)>(s: seq<V>, f: V -> int)
    requires forall v :: v in s ==> f(v) == 0
    ensures Total(s, f) == 0
  {
    if s != [] {
      var front, last := s[..|s| - 1], s[|s| - 1];
      assert s == front + [last];
      TotalZero(front, f);
    }
  }

  // ---------------------------------------------------------------- repeats

  ghost predicate NoRepeats<K(!new)>(s: seq<K>) {
    forall i, j :: 0 <= i < j < |s| ==> s[i] != s[j]
  }

  lemma NoRepeatsOneMore<K(!new)>(front: seq<K>, last: K)
    ensures NoRepeats(front + [last]) <==> NoRepeats(front) && last !in front
  {
    var all := front + [last];
    assert forall i :: 0 <= i < |front| ==> all[i] == front[i];
    if last in front {
      var i :| 0 <= i < |front| && front[i] == last;
      assert all[i] == all[|front|];
    }
  }

  /** A list has as many different members as it is long exactly when none is repeated. */
  lemma {:induction false} SetSize<K(!new)>(s: seq<K>)
    ensures |set k | k in s| <= |s|
    ensures |set k | k in s| == |s| <==> NoRepeats(s)
  {
    if s != [] {
      var front, last := s[..|s| - 1], s[|s| - 1];
      SetSize(front);
      assert s == front + [last];
      assert (set k | k in s) == (set k | k in front) + {last};
      NoRepeatsOneMore(front, last);
      hide NoRepeats;
    }
  }

  function Reversed<A(!new)>(s: seq<A>): (r: seq<A>)
    ensures |r| == |s| && forall i :: 0 <= i < |s| ==> r[i] == s[|s| - 1 - i]
  {
    if s == [] then [] else [s[|s| - 1]] + Reversed(s[..|s| - 1])
  }
}
