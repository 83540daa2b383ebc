/** The response-cache key of `generate_cache_key` (cache.py:11-22): the
    request path, a question mark, and the URL encoding of the request's
    arguments as (key, value) pairs sorted by key and, within a key, by
    value. The arguments are a multimap; here they are the (key, value)
    pairs in the order they arrived. `urllib.parse.urlencode` is a parameter
    of the model: nothing is assumed about it beyond being a function. */
module CacheKey {

  /** One request argument, `(key, value)`. */
  type Pair = (string, string)

  // ---------------------------------------------------------------------
  // Python's ordering of strings: code point by code point, a proper prefix
  // first

  predicate LexLe(a: string, b: string)
    decreases |a|
  {
    |a| == 0 || (|b| != 0 && (a[0] < b[0] || (a[0] == b[0] && LexLe(a[1..], b[1..]))))
  }

  lemma {:induction false} LexLeTotal(a: string, b: string)
    ensures LexLe(a, b) || LexLe(b, a)
    decreases |a|
  {
    if |a| != 0 && |b| != 0 && a[0] == b[0] {
      LexLeTotal(a[1..], b[1..]);
    }
  }

  lemma {:induction false} LexLeAntisymmetric(a: string, b: string)
    requires LexLe(a, b) && LexLe(b, a)
    ensures a == b
    decreases |a|
  {
    if |a| != 0 {
      LexLeAntisymmetric(a[1..], b[1..]);
      assert a == [a[0]] + a[1..];
      assert b == [b[0]] + b[1..];
    }
  }

  lemma {:induction false} LexLeTransitive(a: string, b: string, c: string)
    requires LexLe(a, b) && LexLe(b, c)
    ensures LexLe(a, c)
    decreases |a|
  {
    if |a| != 0 && a[0] == b[0] && b[0] == c[0] {
      LexLeTransitive(a[1..], b[1..], c[1..]);
    }
  }

  // ---------------------------------------------------------------------
  // `sorted()` of a list of strings

  predicate Sorted(s: seq<string>) {
    forall i, j | 0 <= i < j < |s| :: LexLe(s[i], s[j])
  }

  function Insert(x: string, s: seq<string>): (r: seq<string>)
    ensures multiset(r) == multiset(s) + multiset{x}
  {
    if s == [] then [x]
    else if LexLe(x, s[0]) then [x] + s
    else
      assert s == [s[0]] + s[1..];
      [s[0]] + Insert(x, s[1..])
  }

  /** The sorted permutation of `s`; since the order is total, it is the
      only one (`SortedUnique`), so it is what any sort returns. */
  function Sort(s: seq<string>): (r: seq<string>)
    ensures multiset(r) == multiset(s)
  {
    if s == [] then []
    else
      assert s == [s[0]] + s[1..];
      Insert(s[0], Sort(s[1..]))
  }

  lemma SortedCons(x: string, s: seq<string>)
    requires Sorted(s)
    requires forall y | y in s :: LexLe(x, y)
    ensures Sorted([x] + s)
  {
    var r := [x] + s;
    forall i, j | 0 <= i < j < |r|
      ensures LexLe(r[i], r[j])
    {
      if i > 0 {
        assert r[i] == s[i - 1] && r[j] == s[j - 1];
      } else {
        assert r[j] in s;
      }
    }
  }

  lemma {:induction false} InsertSorted(x: string, s: seq<string>)
    requires Sorted(s)
    ensures Sorted(Insert(x, s))
  {
    if s == [] {
    } else if LexLe(x, s[0]) {
      forall y | y in s
        ensures LexLe(x, y)
      {
        if y != s[0] {
          LexLeTransitive(x, s[0], y);
        }
      }
      SortedCons(x, s);
    } else {
      var t := s[1..];
      assert Sorted(t);
      InsertSorted(x, t);
      LexLeTotal(x, s[0]);
      forall y | y in Insert(x, t)
        ensures LexLe(s[0], y)
      {
        assert y in multiset(Insert(x, t));
        assert y == x || y in multiset(t);
        if y != x {
          assert y in t;
        }
      }
      SortedCons(s[0], Insert(x, t));
    }
  }

  lemma {:induction false} SortSorted(s: seq<string>)
    ensures Sorted(Sort(s))
  {
    if s != [] {
      SortSorted(s[1..]);
      InsertSorted(s[0], Sort(s[1..]));
    }
  }

  lemma TailMultiset(s: seq<string>)
    requires s != []
    ensures multiset(s[1..]) == multiset(s) - multiset{s[0]}
  {
    assert s == [s[0]] + s[1..];
  }

  /** Two sorted lists with the same elements are the same list. */
  lemma {:induction false} SortedUnique(s: seq<string>, t: seq<string>)
    requires Sorted(s) && Sorted(t) && multiset(s) == multiset(t)
    ensures s == t
  {
    if s == [] {
      assert |t| == |multiset(t)|;
    } else {
      assert |t| == |multiset(t)| == |multiset(s)| == |s|;
      assert s[0] in multiset(t) && t[0] in multiset(s);
      var i :| 0 <= i < |t| && t[i] == s[0];
      var j :| 0 <= j < |s| && s[j] == t[0];
      assert LexLe(t[0], s[0]) by {
        if i > 0 {
          assert LexLe(t[0], t[i]);
        } else {
          LexLeTotal(t[0], s[0]);
        }
      }
      assert LexLe(s[0], t[0]) by {
        if j > 0 {
          assert LexLe(s[0], s[j]);
        } else {
          LexLeTotal(s[0], t[0]);
        }
      }
      LexLeAntisymmetric(s[0], t[0]);
      TailMultiset(s);
      TailMultiset(t);
      SortedUnique(s[1..], t[1..]);
    }
  }

  /** Sorting does not see the order of its input. */
  lemma SortPermutationInvariant(s: seq<string>, t: seq<string>)
    requires multiset(s) == multiset(t)
    ensures Sort(s) == Sort(t)
  {
    SortSorted(s);
    SortSorted(t);
    SortedUnique(Sort(s), Sort(t));
  }

  // ---------------------------------------------------------------------
  // The request's argument multimap

  /** Each element occurs once. */
  ghost predicate NoDup(s: seq<string>) {
    forall x | x in multiset(s) :: multiset(s)[x] == 1
  }

  /** `sorted(args)`'s input: each key once. A MultiDict lists its keys in
      the order they first arrived; this lists them in the order they last
      arrived, which sorting makes irrelevant. */
  function Keys(args: seq<Pair>): (ks: seq<string>)
    ensures forall k :: k in ks <==> exists i | 0 <= i < |args| :: args[i].0 == k
  {
    if args == [] then []
    else
      var rest := Keys(args[1..]);
      assert forall i | 1 <= i < |args| :: args[i] == args[1..][i - 1];
      if args[0].0 in rest then rest else [args[0].0] + rest
  }

  lemma {:induction false} KeysNoDup(args: seq<Pair>)
    ensures NoDup(Keys(args))
  {
    if args != [] {
      KeysNoDup(args[1..]);
    }
  }

  /** `args.getlist(k)`: the values given for `k`, in order. */
  function Values(args: seq<Pair>, k: string): seq<string> {
    if args == [] then []
    else (if args[0].0 == k then [args[0].1] else []) + Values(args[1..], k)
  }

  /** A value occurs in `getlist(k)` as often as the pair does in the arguments. */
  lemma {:induction false} ValuesCount(args: seq<Pair>, k: string, v: string)
    ensures multiset(Values(args, k))[v] == multiset(args)[(k, v)]
  {
    if args != [] {
      ValuesCount(args[1..], k, v);
      assert args == [args[0]] + args[1..];
    }
  }

  /** The pairs `(k, v)` for `v` in `vs`, in order. */
  function Block(k: string, vs: seq<string>): seq<Pair> {
    if vs == [] then [] else [(k, vs[0])] + Block(k, vs[1..])
  }

  /** The comprehension `[(k, v) for k in ks for v in sorted(args.getlist(k))]`. */
  function Expand(ks: seq<string>, args: seq<Pair>): seq<Pair> {
    if ks == [] then [] else Block(ks[0], Sort(Values(args, ks[0]))) + Expand(ks[1..], args)
  }

  /** The pair list `generate_cache_key` encodes. */
  function Pairs(args: seq<Pair>): seq<Pair> {
    Expand(Sort(Keys(args)), args)
  }

  /** `generate_cache_key` (cache.py:11-22): the key always begins with the
      path and a question mark. */
  function GenerateCacheKey(path: string, args: seq<Pair>, urlencode: seq<Pair> -> string): (key: string)
    ensures |path| < |key| && key[..|path| + 1] == path + "?"
  {
    path + "?" + urlencode(Pairs(args))
  }

  // ---------------------------------------------------------------------
  // The pair list is ordered by key, then by value

  /** `p` comes no later than `q`: a smaller key, or the same key and a value
      that is no larger. */
  predicate PairLe(p: Pair, q: Pair) {
    (p.0 != q.0 && LexLe(p.0, q.0)) || (p.0 == q.0 && LexLe(p.1, q.1))
  }

  predicate Ordered(ps: seq<Pair>) {
    forall i, j | 0 <= i < j < |ps| :: PairLe(ps[i], ps[j])
  }

  lemma {:induction false} BlockShape(k: string, vs: seq<string>)
    ensures |Block(k, vs)| == |vs|
    ensures forall i | 0 <= i < |vs| :: Block(k, vs)[i] == (k, vs[i])
  {
    if vs != [] {
      BlockShape(k, vs[1..]);
    }
  }

  lemma BlockOrdered(k: string, vs: seq<string>)
    requires Sorted(vs)
    ensures Ordered(Block(k, vs))
  {
    BlockShape(k, vs);
  }

  lemma {:induction false} ExpandKeys(ks: seq<string>, args: seq<Pair>)
    ensures forall p | p in Expand(ks, args) :: p.0 in ks
  {
    if ks != [] {
      ExpandKeys(ks[1..], args);
      BlockShape(ks[0], Sort(Values(args, ks[0])));
    }
  }

  lemma OrderedAppend(a: seq<Pair>, b: seq<Pair>)
    requires Ordered(a) && Ordered(b)
    requires forall p, q | p in a && q in b :: PairLe(p, q)
    ensures Ordered(a + b)
  {
    var r := a + b;
    forall i, j | 0 <= i < j < |r|
      ensures PairLe(r[i], r[j])
    {
      if j < |a| {
        assert r[i] == a[i] && r[j] == a[j];
      } else if i >= |a| {
        assert r[i] == b[i - |a|] && r[j] == b[j - |a|];
      } else {
        assert r[i] in a && r[j] in b;
      }
    }
  }

  /** The tail of a list without duplicates is one too, and does not hold
      the head. */
  lemma NoDupTail(ks: seq<string>)
    requires ks != [] && NoDup(ks)
    ensures NoDup(ks[1..]) && ks[0] !in ks[1..]
  {
    var rest := ks[1..];
    assert ks == [ks[0]] + rest;
    assert multiset(ks) == multiset{ks[0]} + multiset(rest);
    forall x | x in multiset(rest)
      ensures multiset(rest)[x] == 1
    {
      assert multiset(ks)[x] == 1;
    }
    assert multiset(ks)[ks[0]] == 1;
  }

  /** Every pair of the head key's block precedes every pair of the rest. */
  lemma HeadBlockFirst(ks: seq<string>, args: seq<Pair>)
    requires ks != [] && Sorted(ks) && ks[0] !in ks[1..]
    ensures forall p, q | p in Block(ks[0], Sort(Values(args, ks[0]))) && q in Expand(ks[1..], args) :: PairLe(p, q)
  {
    var k := ks[0];
    var rest := ks[1..];
    var vs := Sort(Values(args, k));
    BlockShape(k, vs);
    ExpandKeys(rest, args);
    forall p, q | p in Block(k, vs) && q in Expand(rest, args)
      ensures PairLe(p, q)
    {
      var j :| 0 <= j < |rest| && rest[j] == q.0;
      assert ks[j + 1] == q.0;
      assert LexLe(ks[0], ks[j + 1]);
    }
  }

  lemma {:induction false} ExpandOrdered(ks: seq<string>, args: seq<Pair>)
    requires Sorted(ks) && NoDup(ks)
    ensures Ordered(Expand(ks, args))
  {
    if ks != [] {
      NoDupTail(ks);
      ExpandOrdered(ks[1..], args);
      var vs := Sort(Values(args, ks[0]));
      SortSorted(Values(args, ks[0]));
      BlockOrdered(ks[0], vs);
      HeadBlockFirst(ks, args);
      OrderedAppend(Block(ks[0], vs), Expand(ks[1..], args));
    }
  }

  /** The pair list is ordered by key and, within a key, by value (cache.py:17). */
  lemma PairsOrdered(args: seq<Pair>)
    ensures Ordered(Pairs(args))
  {
    var ks := Keys(args);
    SortSorted(ks);
    KeysNoDup(args);
    assert multiset(Sort(ks)) == multiset(ks);
    ExpandOrdered(Sort(ks), args);
  }

  // ---------------------------------------------------------------------
  // The pair list holds exactly the arguments

  lemma {:induction false} BlockCount(k: string, vs: seq<string>, p: Pair)
    ensures multiset(Block(k, vs))[p] == if p.0 == k then multiset(vs)[p.1] else 0
  {
    if vs != [] {
      BlockCount(k, vs[1..], p);
      assert vs == [vs[0]] + vs[1..];
    }
  }

  lemma {:induction false} ExpandCount(ks: seq<string>, args: seq<Pair>, p: Pair)
    requires NoDup(ks)
    ensures multiset(Expand(ks, args))[p] == if p.0 in ks then multiset(args)[p] else 0
  {
    if ks != [] {
      var k := ks[0];
      var rest := ks[1..];
      NoDupTail(ks);
      ExpandCount(rest, args, p);
      BlockCount(k, Sort(Values(args, k)), p);
      ValuesCount(args, k, p.1);
    }
  }

  /** Every (key, value) occurrence of the arguments is in the pair list, as
      often, and nothing else is (cache.py:16-18). */
  lemma PairsPermutation(args: seq<Pair>)
    ensures multiset(Pairs(args)) == multiset(args)
  {
    var ks := Sort(Keys(args));
    KeysNoDup(args);
    forall p
      ensures multiset(Pairs(args))[p] == multiset(args)[p]
    {
      ExpandCount(ks, args, p);
      if p in multiset(args) {
        KeyOfArgument(args, p);
        assert p.0 in multiset(ks);
      }
    }
  }

  // ---------------------------------------------------------------------
  // The key sees the arguments only as a multimap

  /** The key of every argument is among the keys. */
  lemma KeyOfArgument(args: seq<Pair>, p: Pair)
    requires p in multiset(args)
    ensures p.0 in Keys(args)
  {
    var i :| 0 <= i < |args| && args[i] == p;
  }

  lemma KeysPermutation(a1: seq<Pair>, a2: seq<Pair>)
    requires multiset(a1) == multiset(a2)
    ensures multiset(Keys(a1)) == multiset(Keys(a2))
  {
    KeysNoDup(a1);
    KeysNoDup(a2);
    forall k
      ensures multiset(Keys(a1))[k] == multiset(Keys(a2))[k]
    {
      if k in Keys(a1) {
        var i :| 0 <= i < |a1| && a1[i].0 == k;
        KeyOfArgument(a2, a1[i]);
      }
      if k in Keys(a2) {
        var j :| 0 <= j < |a2| && a2[j].0 == k;
        KeyOfArgument(a1, a2[j]);
      }
    }
  }

  lemma {:induction false} ExpandPermutation(ks: seq<string>, a1: seq<Pair>, a2: seq<Pair>)
    requires multiset(a1) == multiset(a2)
    ensures Expand(ks, a1) == Expand(ks, a2)
  {
    if ks != [] {
      var k := ks[0];
      forall v
        ensures multiset(Values(a1, k))[v] == multiset(Values(a2, k))[v]
      {
        ValuesCount(a1, k, v);
        ValuesCount(a2, k, v);
      }
      SortPermutationInvariant(Values(a1, k), Values(a2, k));
      ExpandPermutation(ks[1..], a1, a2);
    }
  }

  /** Reordering the request's arguments gives the same key (cache.py:16-18). */
  lemma CacheKeyPermutationInvariant(path: string, a1: seq<Pair>, a2: seq<Pair>, urlencode: seq<Pair> -> string)
    requires multiset(a1) == multiset(a2)
    ensures GenerateCacheKey(path, a1, urlencode) == GenerateCacheKey(path, a2, urlencode)
  {
    KeysPermutation(a1, a2);
    SortPermutationInvariant(Keys(a1), Keys(a2));
    ExpandPermutation(Sort(Keys(a1)), a1, a2);
  }
}
