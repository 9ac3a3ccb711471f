/** `itertools.combinations` and the composite-action enumeration built on it:
    every selection of 1..K atomic actions, in itertools order. */
module Combinations {
  import opened Seqs

  /** Each list of `cs` with x in front. */
  function Prepend<T>(x: T, cs: seq<seq<T>>): seq<seq<T>>
  {
    seq(|cs|, i requires 0 <= i < |cs| => [x] + cs[i])
  }

  /** `list(itertools.combinations(s, r))`: the selections of r positions of
      s in lexicographic order of the positions, each kept in s's order. */
  function Combos<T>(s: seq<T>, r: nat): seq<seq<T>>
    decreases |s|
  {
    if r == 0 then [[]]
    else if s == [] then []
    else Prepend(s[0], Combos(s[1..], r - 1)) + Combos(s[1..], r)
  }

  /** The binomial coefficient by Pascal's rule (0 when k > n). */
  function Binom(n: nat, k: nat): nat
  {
    if k == 0 then 1 else if n == 0 then 0 else Binom(n - 1, k - 1) + Binom(n - 1, k)
  }

  /** `c` is obtained from `s` by deleting elements (keeping order). */
  predicate IsSubseq<T(==)>(c: seq<T>, s: seq<T>)
    decreases |s|
  {
    if c == [] then true
    else if s == [] then false
    else (c[0] == s[0] && IsSubseq(c[1..], s[1..])) || IsSubseq(c, s[1..])
  }

  predicate Distinct<T(==)>(s: seq<T>)
  {
    forall i, j | 0 <= i < j < |s| :: s[i] != s[j]
  }

  /** There are C(n, r) combinations of size r. */
  lemma {:induction false} CombosCount<T>(s: seq<T>, r: nat)
    ensures |Combos(s, r)| == Binom(|s|, r)
    decreases |s|
  {
    if r > 0 && s != [] {
      CombosCount(s[1..], r - 1);
      CombosCount(s[1..], r);
    }
  }

  /** The prefixed lists are the lists headed by x whose tails were there. */
  lemma PrependMembers<T>(x: T, cs: seq<seq<T>>, c: seq<T>)
    ensures c in Prepend(x, cs) <==> c != [] && c[0] == x && c[1..] in cs
  {
    var r := Prepend(x, cs);
    if c in r {
      var i :| 0 <= i < |r| && r[i] == c;
      assert c[1..] == cs[i];
    }
    if c != [] && c[0] == x && c[1..] in cs {
      var i :| 0 <= i < |cs| && cs[i] == c[1..];
      assert r[i] == c;
    }
  }

  /** Each combination of size r is an order-preserving selection of size r,
      and every such selection is among them. */
  lemma CombosMembers<T>(s: seq<T>, r: nat, c: seq<T>)
    ensures c in Combos(s, r) <==> |c| == r && IsSubseq(c, s)
  {
    if c in Combos(s, r) {
      CombosSelect(s, r, c);
    }
    if |c| == r && IsSubseq(c, s) {
      SelectionsListed(s, r, c);
    }
  }

  /** A combination of size r > 0 takes the head and r - 1 of the rest, or
      r of the rest. */
  lemma CombosUnfold<T>(s: seq<T>, r: nat, c: seq<T>)
    requires r > 0
    ensures c in Combos(s, r) <==>
      (s != [] && (c in Combos(s[1..], r) || (c != [] && c[0] == s[0] && c[1..] in Combos(s[1..], r - 1))))
  {
    if s != [] {
      var shorter := Combos(s[1..], r - 1);
      assert Combos(s, r) == Prepend(s[0], shorter) + Combos(s[1..], r);
      PrependMembers(s[0], shorter, c);
    }
  }

  lemma {:induction false} CombosSelect<T>(s: seq<T>, r: nat, c: seq<T>)
    requires c in Combos(s, r)
    ensures |c| == r && IsSubseq(c, s)
    decreases |s|
  {
    if r > 0 {
      CombosUnfold(s, r, c);
      if c in Combos(s[1..], r) {
        CombosSelect(s[1..], r, c);
      } else {
        CombosSelect(s[1..], r - 1, c[1..]);
      }
    }
  }

  lemma {:induction false} SelectionsListed<T>(s: seq<T>, r: nat, c: seq<T>)
    requires |c| == r && IsSubseq(c, s)
    ensures c in Combos(s, r)
    decreases |s|
  {
    if r > 0 {
      CombosUnfold(s, r, c);
      if IsSubseq(c, s[1..]) {
        SelectionsListed(s[1..], r, c);
      } else {
        SelectionsListed(s[1..], r - 1, c[1..]);
      }
    }
  }

  lemma {:induction false} SubseqElements<T>(c: seq<T>, s: seq<T>)
    requires IsSubseq(c, s)
    ensures forall x | x in c :: x in s
    decreases |s|
  {
    if c != [] {
      if c[0] == s[0] && IsSubseq(c[1..], s[1..]) {
        SubseqElements(c[1..], s[1..]);
        assert forall x | x in c :: x == c[0] || x in c[1..];
      } else {
        SubseqElements(c, s[1..]);
      }
    }
  }

  /** Drawn from a list without repeats, a combination has no repeats. */
  lemma {:induction false} SubseqDistinct<T>(c: seq<T>, s: seq<T>)
    requires IsSubseq(c, s) && Distinct(s)
    ensures Distinct(c)
    decreases |s|
  {
    if c != [] {
      assert Distinct(s[1..]);
      if c[0] == s[0] && IsSubseq(c[1..], s[1..]) {
        SubseqDistinct(c[1..], s[1..]);
        SubseqElements(c[1..], s[1..]);
        assert s[0] !in s[1..];
        forall i, j | 0 <= i < j < |c| ensures c[i] != c[j] {
          if i == 0 { assert c[j] in c[1..]; } else { assert c[i] == c[1..][i - 1] && c[j] == c[1..][j - 1]; }
        }
      } else {
        SubseqDistinct(c, s[1..]);
      }
    }
  }

  /** min(n, k), as the enumerations compute the largest size (0 when k <= 0). */
  function LargestSize(n: nat, k: int): nat
  {
    if k <= 0 then 0 else if k < n then k else n
  }

  /** `combinations(s, 1)`, ..., `combinations(s, m)`, one block per size. */
  function SizeBlocks<T>(s: seq<T>, m: nat): (r: seq<seq<seq<T>>>)
    ensures |r| == m
  {
    seq(m, k requires 0 <= k < m => Combos(s, k + 1))
  }

  /** The composite actions over an atomic list with size cap `maxCombo`. */
  function Composites<T>(s: seq<T>, maxCombo: int): seq<seq<T>>
  {
    Flatten(SizeBlocks(s, LargestSize(|s|, maxCombo)))
  }

  function SumBinom(n: nat, m: nat): nat
  {
    if m == 0 then 0 else SumBinom(n, m - 1) + Binom(n, m)
  }

  lemma {:induction false} SizeBlocksCount<T>(s: seq<T>, m: nat)
    ensures |Flatten(SizeBlocks(s, m))| == SumBinom(|s|, m)
  {
    if m > 0 {
      SizeBlocksCount(s, m - 1);
      CombosCount(s, m);
      assert SizeBlocks(s, m)[..m - 1] == SizeBlocks(s, m - 1);
    }
  }

  lemma SizeBlockAt<T>(s: seq<T>, m: nat, k: nat)
    requires k < m
    ensures SizeBlocks(s, m)[k] == Combos(s, k + 1)
  {
  }

  lemma SizeBlocksMembers<T>(s: seq<T>, m: nat, c: seq<T>)
    ensures c in Flatten(SizeBlocks(s, m)) <==> 1 <= |c| <= m && IsSubseq(c, s)
  {
    FlattenMembers(SizeBlocks(s, m), c);
    if c in Flatten(SizeBlocks(s, m)) {
      FromSomeBlock(s, m, c);
    }
    if 1 <= |c| <= m && IsSubseq(c, s) {
      var k := |c| - 1;
      CombosMembers(s, k + 1, c);
      SizeBlockAt(s, m, k);
    }
  }

  lemma FromSomeBlock<T>(s: seq<T>, m: nat, c: seq<T>)
    requires exists k :: 0 <= k < m && c in SizeBlocks(s, m)[k]
    ensures 1 <= |c| <= m && IsSubseq(c, s)
  {
    var k :| 0 <= k < m && c in SizeBlocks(s, m)[k];
    SizeBlockAt(s, m, k);
    CombosMembers(s, k + 1, c);
  }

  /** The composite action space has sum over r = 1..min(n, K) of C(n, r)
      members: exactly the order-preserving selections of 1..min(n, K)
      atomic actions; from an atomic list without repeats, none repeats a label. */
  lemma CompositesSpec<T>(s: seq<T>, maxCombo: int)
    ensures |Composites(s, maxCombo)| == SumBinom(|s|, LargestSize(|s|, maxCombo))
    ensures forall c :: c in Composites(s, maxCombo) <==>
      1 <= |c| <= LargestSize(|s|, maxCombo) && IsSubseq(c, s)
    ensures Distinct(s) ==> forall c | c in Composites(s, maxCombo) :: Distinct(c)
  {
    var m := LargestSize(|s|, maxCombo);
    SizeBlocksCount(s, m);
    forall c ensures c in Composites(s, maxCombo) <==> 1 <= |c| <= m && IsSubseq(c, s) {
      SizeBlocksMembers(s, m, c);
    }
    if Distinct(s) {
      forall c | c in Composites(s, maxCombo) ensures Distinct(c) {
        SizeBlocksMembers(s, m, c);
        SubseqDistinct(c, s);
      }
    }
  }

  /** The enumeration loop shared by all four agents: for r in
      1..min(n, K), extend the list with `combinations(atomic, r)`. */
  method EnumerateComposites<T>(atomic: seq<T>, maxCombo: int) returns (combos: seq<seq<T>>)
    ensures combos == Composites(atomic, maxCombo)
  {
    combos := [];
    var largest := LargestSize(|atomic|, maxCombo);
    ghost var blocks := SizeBlocks(atomic, largest);
    var r := 1;
    while r <= largest
      invariant 1 <= r <= largest + 1
      invariant combos == Flatten(blocks[..r - 1])
    {
      FlattenStep(blocks, r - 1);
      combos := combos + Combos(atomic, r);
      r := r + 1;
    }
    assert blocks[..largest] == blocks;
  }
}
