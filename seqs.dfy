/** Concatenation of a list of lists, as built by appending block after block. */
module Seqs {
  function Flatten<T>(blocks: seq<seq<T>>): seq<T>
  {
    if blocks == [] then [] else Flatten(blocks[..|blocks| - 1]) + blocks[|blocks| - 1]
  }

  lemma FlattenStep<T>(blocks: seq<seq<T>>, k: nat)
    requires k < |blocks|
    ensures Flatten(blocks[..k + 1]) == Flatten(blocks[..k]) + blocks[k]
  {
    assert blocks[..k + 1][..k] == blocks[..k];
  }

  /** An element of the concatenation comes from one of the blocks, and back. */
  lemma {:induction false} FlattenMembers<T>(blocks: seq<seq<T>>, x: T)
    ensures x in Flatten(blocks) <==> exists k :: 0 <= k < |blocks| && x in blocks[k]
  {
    if blocks != [] {
      var init := blocks[..|blocks| - 1];
      FlattenMembers(init, x);
      if exists k :: 0 <= k < |blocks| && x in blocks[k] {
        var k :| 0 <= k < |blocks| && x in blocks[k];
        if k < |init| {
          assert init[k] == blocks[k];
        }
      }
      if x in Flatten(init) {
        var k :| 0 <= k < |init| && x in init[k];
        assert init[k] == blocks[k];
      }
    }
  }

  /** Blocks of at most `bound` elements concatenate to at most `bound * |blocks|`. */
  lemma {:induction false} FlattenLength<T>(blocks: seq<seq<T>>, bound: nat)
    requires forall k | 0 <= k < |blocks| :: |blocks[k]| <= bound
    ensures |Flatten(blocks)| <= bound * |blocks|
  {
    if blocks != [] {
      FlattenLength(blocks[..|blocks| - 1], bound);
    }
  }

  /** The elements satisfying `keep`, in their order (a Python list comprehension with a condition). */
  function Filter<T>(s: seq<T>, keep: T -> bool): seq<T>
  {
    if s == [] then [] else Filter(s[..|s| - 1], keep) + (if keep(s[|s| - 1]) then [s[|s| - 1]] else [])
  }

  lemma {:induction false} FilterMembers<T>(s: seq<T>, keep: T -> bool, x: T)
    ensures x in Filter(s, keep) <==> x in s && keep(x)
  {
    if s != [] {
      FilterMembers(s[..|s| - 1], keep, x);
      assert s == s[..|s| - 1] + [s[|s| - 1]];
    }
  }

  lemma FilterStep<T>(s: seq<T>, keep: T -> bool, k: nat)
    requires k < |s|
    ensures Filter(s[..k + 1], keep) == Filter(s[..k], keep) + (if keep(s[k]) then [s[k]] else [])
  {
    assert s[..k + 1][..k] == s[..k];
  }

  lemma {:induction false} FilterAll<T>(s: seq<T>, keep: T -> bool)
    requires forall k | 0 <= k < |s| :: keep(s[k])
    ensures Filter(s, keep) == s
  {
    if s != [] {
      FilterAll(s[..|s| - 1], keep);
    }
  }
}
