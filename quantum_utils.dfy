/** The quantum helpers: an alternative legal-bet generator that reads the
    agent's bets directly, the maximally mixed density matrix and a diagonal
    POVM element. */
module QuantumUtils {
  import opened Wrappers
  import opened Seqs
  import opened Bets
  import QBistAgent

  // ---------------------------------------------------------------------
  // get_legal_atomic_bets
  // ---------------------------------------------------------------------

  /** The default `odds_multipliers`. */
  const DefaultMultipliers: seq<int> := [1, 2, 3]

  /** One offer per multiplier, `mult * base`, in order. */
  function Offers(kind: string, base: real, point: Option<int>, multipliers: seq<int>): (r: seq<Bet>)
    ensures |r| == |multipliers|
  {
    seq(|multipliers|, k requires 0 <= k < |multipliers| => Bet(kind, multipliers[k] as real * base, point, None))
  }

  /** `any(b["type"] == "pass_line_odds" for b in agent.bets)` */
  predicate HasPassOdds(bets: seq<Bet>)
  {
    exists i | 0 <= i < |bets| :: bets[i].kind == "pass_line_odds"
  }

  /** `any(b["type"] == "come_odds" and b.get("point") == pt for b in agent.bets)` */
  predicate Backed(bets: seq<Bet>, pt: int)
  {
    exists i | 0 <= i < |bets| :: bets[i].kind == "come_odds" && bets[i].point == Some(pt)
  }

  /** The come-odds offers for one active come point. */
  function ComeOddsBlock(bets: seq<Bet>, base: real, pt: int, multipliers: seq<int>): seq<Bet>
  {
    if Backed(bets, pt) then [] else Offers("come_odds", base, Some(pt), multipliers)
  }

  /** The come-odds offers, point by point in the order the set is iterated. */
  function ComeOddsBlocks(bets: seq<Bet>, base: real, points: seq<int>, multipliers: seq<int>): seq<seq<Bet>>
  {
    seq(|points|, i requires 0 <= i < |points| => ComeOddsBlock(bets, base, points[i], multipliers))
  }

  /** `get_legal_atomic_bets(agent, odds_multipliers)`, with the agent's
      fields as parameters and `points` the order in which its set of active
      come points is iterated: it lists each point of the set once. The
      properties below hold for any sequence, repeats included. */
  function LegalAtomicBets(tableMin: real, pointEstablished: bool, bets: seq<Bet>, points: seq<int>,
                           multipliers: seq<int>): seq<Bet>
  {
    (if pointEstablished && !HasPassOdds(bets) then Offers("pass_line_odds", tableMin, None, multipliers) else [])
    + (if pointEstablished then [PlainBet("come_flat", tableMin)] else [])
    + Flatten(ComeOddsBlocks(bets, tableMin, points, multipliers))
  }

  /** Without a point and without come points nothing is offered. */
  lemma NothingWithoutPoint(tableMin: real, bets: seq<Bet>, multipliers: seq<int>)
    ensures LegalAtomicBets(tableMin, false, bets, [], multipliers) == []
  {
    assert ComeOddsBlocks(bets, tableMin, [], multipliers) == [];
  }

  /** At most one set of pass-line odds, one come bet and one set of come
      odds per come point: 4 + 3 * (number of come points) with the default
      multipliers. */
  lemma OffersLength(tableMin: real, pointEstablished: bool, bets: seq<Bet>, points: seq<int>, multipliers: seq<int>)
    ensures |LegalAtomicBets(tableMin, pointEstablished, bets, points, multipliers)|
      <= |multipliers| + 1 + |multipliers| * |points|
  {
    var blocks := ComeOddsBlocks(bets, tableMin, points, multipliers);
    FlattenLength(blocks, |multipliers|);
  }

  /** An offer made for some come point. */
  predicate ComeOddsOffer(bets: seq<Bet>, base: real, points: seq<int>, multipliers: seq<int>, b: Bet)
  {
    && b.kind == "come_odds" && b.point.Some? && b.point.value in points && !Backed(bets, b.point.value)
    && b.multiplier.None? && exists k :: 0 <= k < |multipliers| && b.amount == multipliers[k] as real * base
  }

  lemma InComeOddsBlock(bets: seq<Bet>, base: real, points: seq<int>, multipliers: seq<int>, i: nat, b: Bet)
    requires i < |points| && b in ComeOddsBlocks(bets, base, points, multipliers)[i]
    ensures ComeOddsOffer(bets, base, points, multipliers, b)
  {
    var block := ComeOddsBlocks(bets, base, points, multipliers)[i];
    var k :| 0 <= k < |block| && block[k] == b;
  }

  lemma ComeOddsOfferIn(bets: seq<Bet>, base: real, points: seq<int>, multipliers: seq<int>, b: Bet)
    requires ComeOddsOffer(bets, base, points, multipliers, b)
    ensures exists i :: 0 <= i < |points| && b in ComeOddsBlocks(bets, base, points, multipliers)[i]
  {
    var blocks := ComeOddsBlocks(bets, base, points, multipliers);
    var i :| 0 <= i < |points| && points[i] == b.point.value;
    var k :| 0 <= k < |multipliers| && b.amount == multipliers[k] as real * base;
    assert blocks[i][k] == b;
  }

  /** The offers from the come-odds blocks. */
  lemma ComeOddsMembers(bets: seq<Bet>, base: real, points: seq<int>, multipliers: seq<int>, b: Bet)
    ensures b in Flatten(ComeOddsBlocks(bets, base, points, multipliers)) <==> ComeOddsOffer(bets, base, points, multipliers, b)
  {
    var blocks := ComeOddsBlocks(bets, base, points, multipliers);
    FlattenMembers(blocks, b);
    if b in Flatten(blocks) {
      var i :| 0 <= i < |blocks| && b in blocks[i];
      InComeOddsBlock(bets, base, points, multipliers, i, b);
    }
    if ComeOddsOffer(bets, base, points, multipliers, b) {
      ComeOddsOfferIn(bets, base, points, multipliers, b);
    }
  }

  /** A pass-line odds offer is made exactly when a point is established and
      no `pass_line_odds` bet is on the table, at each multiple of the table
      minimum. */
  lemma PassOddsOffered(tableMin: real, pointEstablished: bool, bets: seq<Bet>, points: seq<int>,
                        multipliers: seq<int>, b: Bet)
    requires b.kind == "pass_line_odds"
    ensures b in LegalAtomicBets(tableMin, pointEstablished, bets, points, multipliers) <==>
      pointEstablished && !HasPassOdds(bets) && b.point.None? && b.multiplier.None?
      && exists k :: 0 <= k < |multipliers| && b.amount == multipliers[k] as real * tableMin
  {
    ComeOddsMembers(bets, tableMin, points, multipliers, b);
    var offers := Offers("pass_line_odds", tableMin, None, multipliers);
    if b in offers {
      var k :| 0 <= k < |offers| && offers[k] == b;
    }
    if exists k :: 0 <= k < |multipliers| && b.amount == multipliers[k] as real * tableMin {
      var k :| 0 <= k < |multipliers| && b.amount == multipliers[k] as real * tableMin;
      if b.point.None? && b.multiplier.None? {
        assert offers[k] == b;
      }
    }
  }

  /** The come bet of one table minimum is offered exactly when a point is
      established, and then once. */
  lemma ComeFlatOffered(tableMin: real, pointEstablished: bool, bets: seq<Bet>, points: seq<int>, multipliers: seq<int>)
    ensures var offers := LegalAtomicBets(tableMin, pointEstablished, bets, points, multipliers);
      && (PlainBet("come_flat", tableMin) in offers <==> pointEstablished)
      && forall i, j | 0 <= i < j < |offers| :: !(offers[i].kind == "come_flat" && offers[j].kind == "come_flat")
  {
    var offers := LegalAtomicBets(tableMin, pointEstablished, bets, points, multipliers);
    var pass := if pointEstablished && !HasPassOdds(bets) then Offers("pass_line_odds", tableMin, None, multipliers) else [];
    var flat: seq<Bet> := if pointEstablished then [PlainBet("come_flat", tableMin)] else [];
    var come := Flatten(ComeOddsBlocks(bets, tableMin, points, multipliers));
    assert offers == pass + flat + come;
    forall i | 0 <= i < |offers| && offers[i].kind == "come_flat"
      ensures i == |pass| && pointEstablished
    {
      if i >= |pass| + |flat| {
        assert offers[i] == come[i - |pass| - |flat|];
        assert come[i - |pass| - |flat|] in come;
        ComeOddsMembers(bets, tableMin, points, multipliers, offers[i]);
      }
    }
    if PlainBet("come_flat", tableMin) in offers {
      var i :| 0 <= i < |offers| && offers[i] == PlainBet("come_flat", tableMin);
    }
  }

  /** Come odds on a point are offered exactly when the point is active and
      no `come_odds` bet on it is on the table, at each multiple of the table
      minimum. */
  lemma ComeOddsOffered(tableMin: real, pointEstablished: bool, bets: seq<Bet>, points: seq<int>,
                        multipliers: seq<int>, b: Bet)
    requires b.kind == "come_odds"
    ensures b in LegalAtomicBets(tableMin, pointEstablished, bets, points, multipliers) <==>
      b.point.Some? && b.point.value in points && !Backed(bets, b.point.value) && b.multiplier.None?
      && exists k :: 0 <= k < |multipliers| && b.amount == multipliers[k] as real * tableMin
  {
    ComeOddsMembers(bets, tableMin, points, multipliers, b);
    var offers := Offers("pass_line_odds", tableMin, None, multipliers);
    assert b !in offers;
  }

  lemma DefaultMultiple(tableMin: real, amount: real)
    requires tableMin > 0.0
    requires exists k :: 0 <= k < |DefaultMultipliers| && amount == DefaultMultipliers[k] as real * tableMin
    ensures amount > 0.0
    ensures amount == tableMin || amount == 2.0 * tableMin || amount == 3.0 * tableMin
  {
    var k :| 0 <= k < |DefaultMultipliers| && amount == DefaultMultipliers[k] as real * tableMin;
    assert k == 0 || k == 1 || k == 2;
  }

  /** With the default multipliers and a positive table minimum, every offer
      is one, two or three table minimums. */
  lemma DefaultAmounts(tableMin: real, pointEstablished: bool, bets: seq<Bet>, points: seq<int>, b: Bet)
    requires tableMin > 0.0
    requires b in LegalAtomicBets(tableMin, pointEstablished, bets, points, DefaultMultipliers)
    ensures b.amount > 0.0
    ensures b.amount == tableMin || b.amount == 2.0 * tableMin || b.amount == 3.0 * tableMin
  {
    var multipliers := DefaultMultipliers;
    if b.kind == "pass_line_odds" {
      PassOddsOffered(tableMin, pointEstablished, bets, points, multipliers, b);
      DefaultMultiple(tableMin, b.amount);
    } else if b.kind == "come_odds" {
      ComeOddsOffered(tableMin, pointEstablished, bets, points, multipliers, b);
      DefaultMultiple(tableMin, b.amount);
    } else {
      OtherOffer(tableMin, pointEstablished, bets, points, multipliers, b);
    }
  }

  /** The only offer that is not an odds bet is the come bet of one table
      minimum. */
  lemma OtherOffer(tableMin: real, pointEstablished: bool, bets: seq<Bet>, points: seq<int>, multipliers: seq<int>, b: Bet)
    requires b in LegalAtomicBets(tableMin, pointEstablished, bets, points, multipliers)
    requires b.kind != "pass_line_odds" && b.kind != "come_odds"
    ensures b == PlainBet("come_flat", tableMin)
  {
    var pass := if pointEstablished && !HasPassOdds(bets) then Offers("pass_line_odds", tableMin, None, multipliers) else [];
    var flat: seq<Bet> := if pointEstablished then [PlainBet("come_flat", tableMin)] else [];
    var come := Flatten(ComeOddsBlocks(bets, tableMin, points, multipliers));
    assert b in pass + flat + come;
    ComeOddsMembers(bets, tableMin, points, multipliers, b);
    assert b !in come;
    assert b !in pass;
  }

  /** The loop that appends one offer per multiplier. */
  method AppendOffers(offers: seq<Bet>, kind: string, base: real, point: Option<int>, multipliers: seq<int>)
    returns (r: seq<Bet>)
    ensures r == offers + Offers(kind, base, point, multipliers)
  {
    r := offers;
    for k := 0 to |multipliers|
      invariant r == offers + Offers(kind, base, point, multipliers[..k])
    {
      var m := multipliers[k];
      var next := Bet(kind, m as real * base, point, None);
      assert multipliers[..k + 1] == multipliers[..k] + [m];
      OffersAppend(kind, base, point, multipliers[..k], m);
      r := r + [next];
    }
    assert multipliers[..|multipliers|] == multipliers;
  }

  lemma OffersAppend(kind: string, base: real, point: Option<int>, multipliers: seq<int>, m: int)
    ensures Offers(kind, base, point, multipliers + [m])
      == Offers(kind, base, point, multipliers) + [Bet(kind, m as real * base, point, None)]
  {
    var longer := multipliers + [m];
    var a := Offers(kind, base, point, longer);
    var b := Offers(kind, base, point, multipliers) + [Bet(kind, m as real * base, point, None)];
    forall k | 0 <= k < |a| ensures a[k] == b[k] {
      if k < |multipliers| {
        assert longer[k] == multipliers[k];
      }
    }
    assert a == b;
  }

  /** `get_legal_atomic_bets` as it runs. */
  method GetLegalAtomicBets(tableMin: real, pointEstablished: bool, bets: seq<Bet>, points: seq<int>,
                            multipliers: seq<int>) returns (offers: seq<Bet>)
    ensures offers == LegalAtomicBets(tableMin, pointEstablished, bets, points, multipliers)
  {
    offers := [];
    var base := tableMin;
    if pointEstablished && !HasPassOdds(bets) {
      offers := AppendOffers(offers, "pass_line_odds", base, None, multipliers);
    }
    if pointEstablished {
      offers := offers + [PlainBet("come_flat", base)];
    }
    offers := AppendComeOdds(offers, bets, base, points, multipliers);
  }

  /** The loop over the active come points. */
  method AppendComeOdds(offers: seq<Bet>, bets: seq<Bet>, base: real, points: seq<int>, multipliers: seq<int>)
    returns (r: seq<Bet>)
    ensures r == offers + Flatten(ComeOddsBlocks(bets, base, points, multipliers))
  {
    r := offers;
    ghost var blocks := ComeOddsBlocks(bets, base, points, multipliers);
    for i := 0 to |points|
      invariant r == offers + Flatten(blocks[..i])
    {
      FlattenStep(blocks, i);
      var pt := points[i];
      assert blocks[i] == ComeOddsBlock(bets, base, pt, multipliers);
      if !Backed(bets, pt) {
        r := AppendOffers(r, "come_odds", base, Some(pt), multipliers);
      }
    }
    assert blocks[..|points|] == blocks;
  }

  // ---------------------------------------------------------------------
  // construct_density_matrix
  // ---------------------------------------------------------------------

  /** A d x d matrix. */
  predicate IsSquare(m: seq<seq<real>>, d: nat)
  {
    |m| == d && forall k | 0 <= k < d :: |m[k]| == d
  }

  /** `np.identity(d) / d`; numpy refuses a negative size. */
  function DensityMatrix(d: int): (r: Result<seq<seq<real>>>)
    ensures r.Err? <==> d < 0
    ensures r.Ok? ==> IsSquare(r.value, d)
  {
    if d < 0 then Err(ValueError("negative dimensions are not allowed"))
    else Ok(seq(d, i requires 0 <= i < d => seq(d, j requires 0 <= j < d => if i == j then 1.0 / d as real else 0.0)))
  }

  /** The first n diagonal entries added up. */
  function Trace(m: seq<seq<real>>, d: nat, n: nat): real
    requires IsSquare(m, d) && n <= d
  {
    if n == 0 then 0.0 else Trace(m, d, n - 1) + m[n - 1][n - 1]
  }

  lemma AddOneOver(n: nat, d: nat)
    requires d > 0
    ensures n as real / d as real + 1.0 / d as real == (n + 1) as real / d as real
  {
  }

  lemma {:induction false} DensityPartialTrace(d: nat, n: nat)
    requires 0 < d && n <= d
    ensures Trace(DensityMatrix(d).value, d, n) == n as real / d as real
  {
    if n > 0 {
      DensityPartialTrace(d, n - 1);
      AddOneOver(n - 1, d);
    }
  }

  /** The maximally mixed state is a state: 1/d on the diagonal, 0 off it,
      trace 1. */
  lemma DensityMatrixIsState(d: nat)
    requires d > 0
    ensures var rho := DensityMatrix(d).value;
      && (forall i, j | 0 <= i < d && 0 <= j < d :: rho[i][j] == (if i == j then 1.0 / d as real else 0.0))
      && Trace(rho, d, d) == 1.0
  {
    DensityPartialTrace(d, d);
  }

  /** Row i of `rho @ m` times column i, over the first n columns. */
  function RowProduct(a: seq<seq<real>>, m: seq<seq<real>>, d: nat, i: nat, n: nat): real
    requires IsSquare(a, d) && IsSquare(m, d) && i < d && n <= d
  {
    if n == 0 then 0.0 else RowProduct(a, m, d, i, n - 1) + a[i][n - 1] * m[n - 1][i]
  }

  /** `np.trace(a @ m)` over the first n rows. */
  function TraceOfProduct(a: seq<seq<real>>, m: seq<seq<real>>, d: nat, n: nat): real
    requires IsSquare(a, d) && IsSquare(m, d) && n <= d
  {
    if n == 0 then 0.0 else TraceOfProduct(a, m, d, n - 1) + RowProduct(a, m, d, n - 1, d)
  }

  lemma {:induction false} DiagonalRow(a: seq<seq<real>>, m: seq<seq<real>>, d: nat, i: nat, n: nat)
    requires IsSquare(a, d) && IsSquare(m, d) && i < d && n <= d
    requires forall j | 0 <= j < d && j != i :: a[i][j] == 0.0
    ensures RowProduct(a, m, d, i, n) == if i < n then a[i][i] * m[i][i] else 0.0
  {
    if n > 0 {
      DiagonalRow(a, m, d, i, n - 1);
    }
  }

  lemma ScaledEntry(c: real, x: real, d: nat)
    requires d > 0 && c == 1.0 / d as real
    ensures c * x == x / d as real
  {
  }

  lemma {:induction false} MixedPartialTrace(m: seq<seq<real>>, d: nat, n: nat)
    requires 0 < d && IsSquare(m, d) && n <= d
    ensures TraceOfProduct(DensityMatrix(d).value, m, d, n) == Trace(m, d, n) / d as real
  {
    if n > 0 {
      var rho := DensityMatrix(d).value;
      MixedPartialTrace(m, d, n - 1);
      DiagonalRow(rho, m, d, n - 1, d);
      ScaledEntry(rho[n - 1][n - 1], m[n - 1][n - 1], d);
      AddQuotient(Trace(m, d, n - 1), m[n - 1][n - 1], d);
    }
  }

  lemma AddQuotient(a: real, b: real, d: nat)
    requires d > 0
    ensures a / d as real + b / d as real == (a + b) / d as real
  {
  }

  lemma {:induction false} TracesAgree(m: seq<seq<real>>, d: nat, n: nat)
    requires IsSquare(m, d) && n <= d
    ensures Trace(m, d, n) == QBistAgent.DiagSum(m, d, n)
  {
    if n > 0 {
      TracesAgree(m, d, n - 1);
    }
  }

  /** Under the maximally mixed state an element's probability `Tr(rho H)`
      is its trace over d, the probability the QBist agent uses. */
  lemma MixedStateProbability(m: seq<seq<real>>, d: nat)
    requires 0 < d && IsSquare(m, d)
    ensures TraceOfProduct(DensityMatrix(d).value, m, d, d) == QBistAgent.Prob(m, d)
  {
    MixedPartialTrace(m, d, d);
    TracesAgree(m, d, d);
  }

  // ---------------------------------------------------------------------
  // construct_povm_element
  // ---------------------------------------------------------------------

  /** numpy's reading of index i on an axis of length dim: negative indices
      count from the end; anything else is an IndexError. */
  function AxisIndex(i: int, dim: int): (r: Option<int>)
    ensures r.Some? <==> -dim <= i < dim
    ensures r.Some? ==> 0 <= r.value < dim && (r.value == i || r.value == i + dim)
  {
    if 0 <= i < dim then Some(i) else if -dim <= i < 0 then Some(i + dim) else None
  }

  /** Every index is a valid numpy index. */
  predicate InRange(indices: seq<int>, dim: int)
  {
    forall k | 0 <= k < |indices| :: -dim <= indices[k] < dim
  }

  /** Some index lands on diagonal position i. */
  predicate Marked(indices: seq<int>, dim: int, i: int)
  {
    exists k | 0 <= k < |indices| :: AxisIndex(indices[k], dim) == Some(i)
  }

  /** The entry at (i, j) after the writes of the first n indices. */
  function PovmEntry(indices: seq<int>, dim: int, i: int, j: int): real
  {
    if i == j && Marked(indices, dim, i) then 1.0 else 0.0
  }

  /** `construct_povm_element(indices, dim)`: a zero matrix, a negative size
      refused with ValueError, an out-of-range index with IndexError. */
  function PovmElement(indices: seq<int>, dim: int): (r: Result<seq<seq<real>>>)
  {
    if dim < 0 then Err(ValueError("negative dimensions are not allowed"))
    else if !InRange(indices, dim) then Err(IndexError)
    else Ok(seq(dim, i requires 0 <= i < dim => seq(dim, j requires 0 <= j < dim => PovmEntry(indices, dim, i, j))))
  }

  /** The element is diagonal, with a 1 exactly where a (possibly negative)
      index points, and it fails exactly on a negative size or an index
      outside -dim..dim-1. */
  lemma PovmElementSpec(indices: seq<int>, dim: int)
    ensures PovmElement(indices, dim).Err? <==> dim < 0 || exists k | 0 <= k < |indices| :: !(-dim <= indices[k] < dim)
    ensures PovmElement(indices, dim).Ok? ==>
      var e := PovmElement(indices, dim).value;
      && IsSquare(e, dim)
      && (forall i, j | 0 <= i < dim && 0 <= j < dim && i != j :: e[i][j] == 0.0)
      && (forall i | 0 <= i < dim :: e[i][i] == 1.0 <==> exists k | 0 <= k < |indices| :: indices[k] == i || indices[k] == i - dim)
  {
    if PovmElement(indices, dim).Ok? {
      var e := PovmElement(indices, dim).value;
      forall i | 0 <= i < dim
        ensures e[i][i] == 1.0 <==> exists k | 0 <= k < |indices| :: indices[k] == i || indices[k] == i - dim
      {
        if exists k | 0 <= k < |indices| :: indices[k] == i || indices[k] == i - dim {
          var k :| 0 <= k < |indices| && (indices[k] == i || indices[k] == i - dim);
          assert AxisIndex(indices[k], dim) == Some(i);
        }
      }
    }
  }

  /** Repeating an index changes nothing. */
  lemma PovmDuplicate(indices: seq<int>, dim: int, x: int)
    requires x in indices
    ensures PovmElement(indices + [x], dim) == PovmElement(indices, dim)
  {
    var longer := indices + [x];
    var k :| 0 <= k < |indices| && indices[k] == x;
    assert InRange(longer, dim) <==> InRange(indices, dim) by {
      if InRange(indices, dim) {
        assert -dim <= longer[|indices|] < dim by {
          assert longer[|indices|] == indices[k];
        }
      }
      if InRange(longer, dim) {
        forall j | 0 <= j < |indices| ensures -dim <= indices[j] < dim {
          assert longer[j] == indices[j];
        }
      }
    }
    forall i ensures Marked(longer, dim, i) <==> Marked(indices, dim, i) {
      if Marked(longer, dim, i) {
        var j :| 0 <= j < |longer| && AxisIndex(longer[j], dim) == Some(i);
        if j < |indices| {
          assert longer[j] == indices[j];
        } else {
          assert AxisIndex(indices[k], dim) == Some(i);
        }
      }
      if Marked(indices, dim, i) {
        var j :| 0 <= j < |indices| && AxisIndex(indices[j], dim) == Some(i);
        assert longer[j] == indices[j];
      }
    }
    if dim >= 0 && InRange(indices, dim) {
      var e := PovmElement(indices, dim).value;
      var f := PovmElement(longer, dim).value;
      forall i | 0 <= i < dim ensures e[i] == f[i] {
        assert forall j | 0 <= j < dim :: e[i][j] == f[i][j];
      }
      assert e == f;
    }
  }

  /** The matrix an array holds, row by row. */
  function Rows(e: array2<real>): (r: seq<seq<real>>)
    reads e
    ensures |r| == e.Length0
  {
    seq(e.Length0, i requires 0 <= i < e.Length0 reads e => seq(e.Length1, j requires 0 <= j < e.Length1 reads e => e[i, j]))
  }

  /** `construct_povm_element` as it runs: `np.zeros`, then `E[i, i] = 1.0`
      for each index in turn. */
  method ConstructPovmElement(indices: seq<int>, dim: int) returns (r: Result<array2<real>>)
    ensures r.Err? ==> PovmElement(indices, dim) == Err(r.error)
    ensures r.Ok? ==> fresh(r.value) && PovmElement(indices, dim) == Ok(Rows(r.value))
  {
    if dim < 0 {
      return Err(ValueError("negative dimensions are not allowed"));
    }
    var e := new real[dim, dim]((i, j) => 0.0);
    for n := 0 to |indices|
      invariant e.Length0 == dim && e.Length1 == dim
      invariant InRange(indices[..n], dim)
      invariant forall i, j | 0 <= i < dim && 0 <= j < dim :: e[i, j] == PovmEntry(indices[..n], dim, i, j)
    {
      var x := indices[n];
      if !(-dim <= x < dim) {
        assert !InRange(indices, dim) by {
          assert indices[n] == x;
        }
        return Err(IndexError);
      }
      var i := if x < 0 then x + dim else x;
      forall a, b | 0 <= a < dim && 0 <= b < dim
        ensures PovmEntry(indices[..n + 1], dim, a, b) == if a == i && b == i then 1.0 else PovmEntry(indices[..n], dim, a, b)
      {
        MarkedStep(indices, dim, n, a);
      }
      e[i, i] := 1.0;
    }
    assert indices[..|indices|] == indices;
    var m := PovmElement(indices, dim).value;
    forall i | 0 <= i < dim ensures Rows(e)[i] == m[i] {
      assert forall j | 0 <= j < dim :: Rows(e)[i][j] == m[i][j];
    }
    assert Rows(e) == m;
    r := Ok(e);
  }

  lemma MarkedStep(indices: seq<int>, dim: int, n: nat, a: int)
    requires n < |indices|
    ensures Marked(indices[..n + 1], dim, a) <==> Marked(indices[..n], dim, a) || AxisIndex(indices[n], dim) == Some(a)
  {
    var prefix := indices[..n + 1];
    if Marked(prefix, dim, a) {
      var j :| 0 <= j < |prefix| && AxisIndex(prefix[j], dim) == Some(a);
      if j < n {
        assert indices[..n][j] == prefix[j];
      }
    }
    if Marked(indices[..n], dim, a) {
      var j :| 0 <= j < n && AxisIndex(indices[..n][j], dim) == Some(a);
      assert prefix[j] == indices[..n][j];
    }
    if AxisIndex(indices[n], dim) == Some(a) {
      assert prefix[n] == indices[n];
    }
  }
}
