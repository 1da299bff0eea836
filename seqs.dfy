/** Sequence facts shared by the crawler and the indexer. */
module Seqs {

  /** No element of s occurs twice. */
  predicate NoDuplicates<T(==)>(s: seq<T>) {
    forall i, j :: 0 <= i < j < |s| ==> s[i] != s[j]
  }

  /** Number of occurrences of x in s. */
  function Count<T(==)>(s: seq<T>, x: T): (n: nat)
    ensures n <= |s|
    ensures n > 0 <==> x in s
  {
    if s == [] then 0
    else
      assert s == s[..|s| - 1] + [s[|s| - 1]];
      Count(s[..|s| - 1], x) + (if s[|s| - 1] == x then 1 else 0)
  }

  lemma {:induction false} CountSnoc<T>(s: seq<T>, x: T, y: T)
    ensures Count(s + [x], y) == Count(s, y) + (if x == y then 1 else 0)
  {
    assert (s + [x])[..|s|] == s;
  }

  /** The first occurrence of every element of s, in the order of s
      (the key order of a Python dict filled from s). */
  function Dedup<T(==)>(s: seq<T>): (r: seq<T>)
    ensures |r| <= |s|
  {
    if s == [] then []
    else
      assert s == s[..|s| - 1] + [s[|s| - 1]];
      var prefix := Dedup(s[..|s| - 1]);
      if s[|s| - 1] in prefix then prefix else prefix + [s[|s| - 1]]
  }

  lemma {:induction false} DedupSnoc<T(!new)>(s: seq<T>, x: T)
    ensures Dedup(s + [x]) == if x in s then Dedup(s) else Dedup(s) + [x]
  {
    assert (s + [x])[..|s|] == s;
    DedupMembers(s);
  }

  /** Dedup keeps exactly the elements of s, each once. */
  lemma {:induction false} DedupMembers<T(!new)>(s: seq<T>)
    ensures NoDuplicates(Dedup(s))
    ensures forall x :: x in Dedup(s) <==> x in s
  {
    if s != [] {
      var init, last := s[..|s| - 1], s[|s| - 1];
      assert s == init + [last];
      DedupMembers(init);
    }
  }

  /** A non-empty sequence is its prefix followed by its last element. */
  lemma {:induction false} LastSplit<T>(s: seq<T>)
    requires s != []
    ensures s == s[..|s| - 1] + [s[|s| - 1]]
  {
  }

  /** The first i + 1 elements are the first i followed by element i. */
  lemma {:induction false} PrefixSnoc<T>(s: seq<T>, i: nat)
    requires i < |s|
    ensures s[..i + 1] == s[..i] + [s[i]]
  {
  }

  /** Concatenation of a sequence of sequences. */
  function Flatten<T>(ss: seq<seq<T>>): seq<T>
  {
    if ss == [] then [] else Flatten(ss[..|ss| - 1]) + ss[|ss| - 1]
  }

  lemma {:induction false} FlattenSnoc<T>(ss: seq<seq<T>>, last: seq<T>)
    ensures Flatten(ss + [last]) == Flatten(ss) + last
  {
    assert (ss + [last])[..|ss|] == ss;
  }

  /** Sum over the elements of keys of their number of occurrences in s. */
  function TotalCount<T(==)>(keys: seq<T>, s: seq<T>): nat
  {
    if keys == [] then 0
    else TotalCount(keys[..|keys| - 1], s) + Count(s, keys[|keys| - 1])
  }

  lemma {:induction false} TotalCountSnoc<T>(keys: seq<T>, s: seq<T>, x: T)
    ensures TotalCount(keys, s + [x]) == TotalCount(keys, s) + Count(keys, x)
  {
    if keys != [] {
      var init, k := keys[..|keys| - 1], keys[|keys| - 1];
      TotalCountSnoc(init, s, x);
      CountSnoc(s, x, k);
      assert keys == init + [k];
      CountSnoc(init, k, x);
    }
  }

  lemma {:induction false} CountOfDistinct<T>(keys: seq<T>, x: T)
    requires NoDuplicates(keys) && x in keys
    ensures Count(keys, x) == 1
  {
    var init, k := keys[..|keys| - 1], keys[|keys| - 1];
    assert keys == init + [k];
    CountSnoc(init, k, x);
    if k == x {
      assert x !in init by {
        forall i | 0 <= i < |init| ensures init[i] != x {
          assert keys[i] != keys[|keys| - 1];
        }
      }
    } else {
      CountOfDistinct(init, x);
    }
  }

  /** Counting every distinct element of s once accounts for all of s. */
  lemma {:induction false} CountsSumToLength<T(!new)>(s: seq<T>)
    ensures TotalCount(Dedup(s), s) == |s|
  {
    if s != [] {
      var init, x := s[..|s| - 1], s[|s| - 1];
      assert s == init + [x];
      CountsSumToLength(init);
      DedupSnoc(init, x);
      TotalCountSnoc(Dedup(init), init, x);
      if x in init {
        DedupMembers(init);
        CountOfDistinct(Dedup(init), x);
      } else {
        var d := Dedup(init) + [x];
        assert d[..|d| - 1] == Dedup(init);
        assert TotalCount(d, s) == TotalCount(Dedup(init), s) + Count(s, x);
        CountSnoc(init, x, x);
      }
    }
  }
}
