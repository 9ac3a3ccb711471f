/** The legal incremental ("atomic") bets offered at a decision point, from a
    snapshot of the table. */
module AtomicActions {
  import opened Wrappers
  import opened Text
  import opened Labels
  import opened Seqs

  /** The odds-bet unit per point, keyed by the point as a decimal string. */
  const PointDenominators: map<string, int> := map["4" := 1, "5" := 2, "6" := 5, "8" := 5, "9" := 2, "10" := 1]

  const MaxMultiplier: int := 3

  /** `legal_odds_bet_amounts(point, max_mult)`: the point's unit times
      1..max_mult, or nothing for a string that is not a point. */
  function LegalOddsBetAmounts(point: string, maxMult: int): (r: seq<int>)
    ensures point !in PointDenominators ==> r == []
    ensures forall i, j | 0 <= i < j < |r| :: 0 < r[i] < r[j]
  {
    if point !in PointDenominators then []
    else
      var unit := PointDenominators[point];
      seq(if maxMult > 0 then maxMult else 0, i => unit * (i + 1))
  }

  lemma IntToStringOfPoints()
    ensures IntToString(4) == "4" && IntToString(5) == "5" && IntToString(6) == "6"
    ensures IntToString(8) == "8" && IntToString(9) == "9" && IntToString(10) == "10"
  {
    assert NatToString(10) == NatToString(1) + [DigitChar(0)];
  }

  /** An integer's `str` is a key of the denominator table exactly when the
      integer is a point. */
  lemma PointKey(p: int)
    ensures IntToString(p) in PointDenominators <==> p in {4, 5, 6, 8, 9, 10}
  {
    IntToStringOfPoints();
    if IntToString(p) in PointDenominators {
      var q :| q in {4, 5, 6, 8, 9, 10} && IntToString(q) == IntToString(p);
      IntToStringInjective(p, q);
    }
  }

  /** For an integer point the legal amounts are [d, 2d, 3d] with d = 1 for
      4 and 10, 2 for 5 and 9, 5 for 6 and 8, and [] for any other integer;
      the integer and its `str` form are looked up alike. */
  lemma LegalOddsForPoint(p: int)
    ensures LegalOddsBetAmounts(IntToString(p), MaxMultiplier) ==
      if p == 4 || p == 10 then [1, 2, 3]
      else if p == 5 || p == 9 then [2, 4, 6]
      else if p == 6 || p == 8 then [5, 10, 15]
      else []
  {
    PointKey(p);
    IntToStringOfPoints();
  }

  /** Python dictionary keys of `come_odds_levels`: the generator looks
      points up by `str`, while `build_game_state` stores them by `int`. */
  datatype PyKey = IntKey(i: int) | StrKey(s: string)

  /** The table snapshot the generator reads. */
  datatype GameState = GameState(
    passLineOddsLevels: seq<real>,
    comeFlatActive: bool,
    activeComePoints: seq<int>,
    comeOddsLevels: map<PyKey, seq<real>>,
    currentPoint: Option<int>,
    tableMin: real)

  /** The amounts not already used, in their order. */
  function Unused(amounts: seq<int>, used: seq<real>): seq<int>
  {
    if amounts == [] then []
    else
      var last := amounts[|amounts| - 1];
      Unused(amounts[..|amounts| - 1], used) + (if last as real in used then [] else [last])
  }

  function PassLineOddsLabels(amounts: seq<int>): (r: seq<string>)
    ensures |r| == |amounts|
  {
    if amounts == [] then []
    else PassLineOddsLabels(amounts[..|amounts| - 1]) + [PassLineOddsLabel(amounts[|amounts| - 1])]
  }

  function ComeOddsLabels(amounts: seq<int>, point: string): (r: seq<string>)
    ensures |r| == |amounts|
  {
    if amounts == [] then []
    else ComeOddsLabels(amounts[..|amounts| - 1], point) + [ComeOddsLabel(amounts[|amounts| - 1], point)]
  }

  lemma UnusedStep(amounts: seq<int>, i: nat, used: seq<real>)
    requires i < |amounts|
    ensures Unused(amounts[..i + 1], used) ==
      Unused(amounts[..i], used) + (if amounts[i] as real in used then [] else [amounts[i]])
  {
    assert amounts[..i + 1][..i] == amounts[..i];
  }

  /** `come_odds_levels.get(str(pt), [])` */
  function ComeUsed(levels: map<PyKey, seq<real>>, point: int): seq<real>
  {
    if StrKey(IntToString(point)) in levels then levels[StrKey(IntToString(point))] else []
  }

  function PassLineOddsBlock(point: int, used: seq<real>): seq<string>
  {
    PassLineOddsLabels(Unused(LegalOddsBetAmounts(IntToString(point), MaxMultiplier), used))
  }

  function ComeOddsBlock(point: int, levels: map<PyKey, seq<real>>): seq<string>
  {
    ComeOddsLabels(Unused(LegalOddsBetAmounts(IntToString(point), MaxMultiplier), ComeUsed(levels, point)), IntToString(point))
  }

  /** One block of come-odds labels per active come point, in order. */
  function ComeOddsBlockList(points: seq<int>, levels: map<PyKey, seq<real>>): (r: seq<seq<string>>)
    ensures |r| == |points|
    ensures forall k | 0 <= k < |points| :: r[k] == ComeOddsBlock(points[k], levels)
  {
    seq(|points|, k requires 0 <= k < |points| => ComeOddsBlock(points[k], levels))
  }

  function ComeOddsBlocks(points: seq<int>, levels: map<PyKey, seq<real>>): seq<string>
  {
    Flatten(ComeOddsBlockList(points, levels))
  }

  function ComeFlatBlock(active: bool): seq<string>
  {
    if active then [] else [ComeFlat]
  }

  /** What `generate_atomic_actions` returns: nothing before a point exists;
      otherwise the unused pass-line odds amounts at the point, then
      `come_flat` unless one is pending, then per active come point its
      unused come-odds amounts. */
  function AtomicActionsOf(gs: GameState): seq<string>
  {
    match gs.currentPoint
    case None => []
    case Some(p) =>
      PassLineOddsBlock(p, gs.passLineOddsLevels) + ComeFlatBlock(gs.comeFlatActive)
        + ComeOddsBlocks(gs.activeComePoints, gs.comeOddsLevels)
  }

  /** `Unused` keeps exactly the amounts not yet used, in their order. */
  lemma {:induction false} UnusedSpec(amounts: seq<int>, used: seq<real>)
    ensures forall x :: x in Unused(amounts, used) <==> x in amounts && x as real !in used
    ensures |Unused(amounts, used)| <= |amounts|
    ensures (forall i, j | 0 <= i < j < |amounts| :: amounts[i] < amounts[j]) ==>
      forall i, j | 0 <= i < j < |Unused(amounts, used)| :: Unused(amounts, used)[i] < Unused(amounts, used)[j]
  {
    if amounts != [] {
      var init := amounts[..|amounts| - 1];
      var last := amounts[|amounts| - 1];
      UnusedSpec(init, used);
      assert amounts == init + [last];
      var u := Unused(amounts, used);
      if forall i, j | 0 <= i < j < |amounts| :: amounts[i] < amounts[j] {
        forall i, j | 0 <= i < j < |u| ensures u[i] < u[j] {
          var ui := Unused(init, used);
          if j >= |ui| {
            assert u[i] == ui[i] && ui[i] in init;
            var k :| 0 <= k < |init| && init[k] == ui[i];
            assert u[j] == last == amounts[|amounts| - 1] && init[k] == amounts[k];
          }
        }
      }
    }
  }

  lemma {:induction false} PassLineOddsLabelsAt(amounts: seq<int>)
    ensures forall i | 0 <= i < |amounts| :: PassLineOddsLabels(amounts)[i] == PassLineOddsLabel(amounts[i])
  {
    if amounts != [] {
      PassLineOddsLabelsAt(amounts[..|amounts| - 1]);
    }
  }

  lemma {:induction false} ComeOddsLabelsAt(amounts: seq<int>, point: string)
    ensures forall i | 0 <= i < |amounts| :: ComeOddsLabels(amounts, point)[i] == ComeOddsLabel(amounts[i], point)
  {
    if amounts != [] {
      ComeOddsLabelsAt(amounts[..|amounts| - 1], point);
    }
  }

  /** A pass-line odds label is in the pass-line block exactly when its
      amount is legal at the point and not already used. */
  lemma PassLineOddsBlockMembers(point: int, used: seq<real>, amt: int)
    ensures PassLineOddsLabel(amt) in PassLineOddsBlock(point, used) <==>
      amt in LegalOddsBetAmounts(IntToString(point), MaxMultiplier) && amt as real !in used
  {
    var u := Unused(LegalOddsBetAmounts(IntToString(point), MaxMultiplier), used);
    UnusedSpec(LegalOddsBetAmounts(IntToString(point), MaxMultiplier), used);
    PassLineOddsLabelsAt(u);
    if PassLineOddsLabel(amt) in PassLineOddsBlock(point, used) {
      var i :| 0 <= i < |u| && PassLineOddsBlock(point, used)[i] == PassLineOddsLabel(amt);
      PassLineOddsLabelInjective(u[i], amt);
    }
    if amt in u {
      var i :| 0 <= i < |u| && u[i] == amt;
      assert PassLineOddsBlock(point, used)[i] == PassLineOddsLabel(amt);
    }
  }

  /** Every label of the pass-line block is a pass-line odds label. */
  lemma PassLineOddsBlockShape(point: int, used: seq<real>, l: string)
    requires l in PassLineOddsBlock(point, used)
    ensures exists a :: l == PassLineOddsLabel(a)
  {
    var u := Unused(LegalOddsBetAmounts(IntToString(point), MaxMultiplier), used);
    PassLineOddsLabelsAt(u);
    var i :| 0 <= i < |u| && PassLineOddsBlock(point, used)[i] == l;
    assert l == PassLineOddsLabel(u[i]);
  }

  /** `l` is the come-odds label of an unused legal amount `a` on come point `pt`. */
  predicate ComeOddsFor(pt: int, levels: map<PyKey, seq<real>>, a: int, l: string)
  {
    a in Unused(LegalOddsBetAmounts(IntToString(pt), MaxMultiplier), ComeUsed(levels, pt))
      && l == ComeOddsLabel(a, IntToString(pt))
  }

  lemma ComeOddsBlockMembers(pt: int, levels: map<PyKey, seq<real>>, l: string)
    ensures l in ComeOddsBlock(pt, levels) <==> exists a :: ComeOddsFor(pt, levels, a, l)
  {
    var u := Unused(LegalOddsBetAmounts(IntToString(pt), MaxMultiplier), ComeUsed(levels, pt));
    ComeOddsLabelsAt(u, IntToString(pt));
    if l in ComeOddsBlock(pt, levels) {
      var i :| 0 <= i < |u| && ComeOddsBlock(pt, levels)[i] == l;
      assert ComeOddsFor(pt, levels, u[i], l);
    }
    if exists a :: ComeOddsFor(pt, levels, a, l) {
      var a :| ComeOddsFor(pt, levels, a, l);
      var i :| 0 <= i < |u| && u[i] == a;
      assert ComeOddsBlock(pt, levels)[i] == l;
    }
  }

  /** A label is in the come-odds blocks exactly when it is in the block of one of the points. */
  lemma ComeOddsBlocksMembers(points: seq<int>, levels: map<PyKey, seq<real>>, l: string)
    ensures l in ComeOddsBlocks(points, levels) <==>
      exists k :: 0 <= k < |points| && l in ComeOddsBlock(points[k], levels)
  {
    FlattenMembers(ComeOddsBlockList(points, levels), l);
  }

  lemma ComeOddsBlocksLength(points: seq<int>, levels: map<PyKey, seq<real>>)
    ensures |ComeOddsBlocks(points, levels)| <= 3 * |points|
  {
    var blocks := ComeOddsBlockList(points, levels);
    forall k | 0 <= k < |blocks| ensures |blocks[k]| <= 3 {
      UnusedSpec(LegalOddsBetAmounts(IntToString(points[k]), MaxMultiplier), ComeUsed(levels, points[k]));
      LegalOddsForPoint(points[k]);
    }
    FlattenLength(blocks, 3);
  }

  /** Pass-line odds are offered at the point exactly for the legal amounts
      not in `pass_line_odds_levels`, in ascending order of amount. */
  lemma PassLineOddsOffered(gs: GameState, amt: int)
    requires gs.currentPoint.Some?
    ensures PassLineOddsLabel(amt) in AtomicActionsOf(gs) <==>
      amt in LegalOddsBetAmounts(IntToString(gs.currentPoint.value), MaxMultiplier) && amt as real !in gs.passLineOddsLevels
  {
    var l := PassLineOddsLabel(amt);
    PassLineOddsBlockMembers(gs.currentPoint.value, gs.passLineOddsLevels, amt);
    LabelKindsDiffer(amt, 0, "4");
    ComeOddsBlocksMembers(gs.activeComePoints, gs.comeOddsLevels, l);
    if l in ComeOddsBlocks(gs.activeComePoints, gs.comeOddsLevels) {
      var k :| 0 <= k < |gs.activeComePoints| && l in ComeOddsBlock(gs.activeComePoints[k], gs.comeOddsLevels);
      ComeOddsBlockMembers(gs.activeComePoints[k], gs.comeOddsLevels, l);
      var a :| ComeOddsFor(gs.activeComePoints[k], gs.comeOddsLevels, a, l);
      IntToStringShape(gs.activeComePoints[k]);
      LabelKindsDiffer(amt, a, IntToString(gs.activeComePoints[k]));
    }
  }

  /** Come odds `come_odds_$A_pt` are offered exactly when pt is an active
      come point and A is a legal amount for it not listed under the
      string key `str(pt)` of `come_odds_levels`. */
  lemma ComeOddsOffered(gs: GameState, pt: int, amt: int)
    requires gs.currentPoint.Some?
    ensures ComeOddsLabel(amt, IntToString(pt)) in AtomicActionsOf(gs) <==>
      pt in gs.activeComePoints && amt in LegalOddsBetAmounts(IntToString(pt), MaxMultiplier)
        && amt as real !in ComeUsed(gs.comeOddsLevels, pt)
  {
    var l := ComeOddsLabel(amt, IntToString(pt));
    var points := gs.activeComePoints;
    IntToStringShape(pt);
    LabelKindsDiffer(0, amt, IntToString(pt));
    if l in PassLineOddsBlock(gs.currentPoint.value, gs.passLineOddsLevels) {
      PassLineOddsBlockShape(gs.currentPoint.value, gs.passLineOddsLevels, l);
      var a :| l == PassLineOddsLabel(a);
      LabelKindsDiffer(a, amt, IntToString(pt));
    }
    ComeOddsBlocksMembers(points, gs.comeOddsLevels, l);
    UnusedSpec(LegalOddsBetAmounts(IntToString(pt), MaxMultiplier), ComeUsed(gs.comeOddsLevels, pt));
    if l in ComeOddsBlocks(points, gs.comeOddsLevels) {
      var k :| 0 <= k < |points| && l in ComeOddsBlock(points[k], gs.comeOddsLevels);
      ComeOddsBlockMembers(points[k], gs.comeOddsLevels, l);
      var a :| ComeOddsFor(points[k], gs.comeOddsLevels, a, l);
      IntToStringShape(points[k]);
      ComeOddsLabelInjective(a, IntToString(points[k]), amt, IntToString(pt));
      IntToStringInjective(points[k], pt);
    }
    if pt in points && amt in LegalOddsBetAmounts(IntToString(pt), MaxMultiplier) && amt as real !in ComeUsed(gs.comeOddsLevels, pt) {
      var k :| 0 <= k < |points| && points[k] == pt;
      assert ComeOddsFor(points[k], gs.comeOddsLevels, amt, l);
      ComeOddsBlockMembers(points[k], gs.comeOddsLevels, l);
    }
  }

  /** `come_flat` is offered at most once, and exactly when a point is set
      and no come bet is pending. */
  lemma ComeFlatOffered(gs: GameState)
    ensures multiset(AtomicActionsOf(gs))[ComeFlat] == if gs.currentPoint.Some? && !gs.comeFlatActive then 1 else 0
  {
    if gs.currentPoint.Some? {
      var p := gs.currentPoint.value;
      var pass := PassLineOddsBlock(p, gs.passLineOddsLevels);
      var come := ComeOddsBlocks(gs.activeComePoints, gs.comeOddsLevels);
      if ComeFlat in pass {
        PassLineOddsBlockShape(p, gs.passLineOddsLevels, ComeFlat);
        assert false;
      }
      ComeOddsBlocksMembers(gs.activeComePoints, gs.comeOddsLevels, ComeFlat);
      if ComeFlat in come {
        var k :| 0 <= k < |gs.activeComePoints| && ComeFlat in ComeOddsBlock(gs.activeComePoints[k], gs.comeOddsLevels);
        ComeOddsBlockMembers(gs.activeComePoints[k], gs.comeOddsLevels, ComeFlat);
        assert false;
      }
      assert multiset(AtomicActionsOf(gs)) == multiset(pass) + multiset(ComeFlatBlock(gs.comeFlatActive)) + multiset(come);
    }
  }

  /** The generated list is the pass-line block, then `come_flat`, then the
      come-odds blocks, so it holds at most 4 + 3 * |active come points| labels. */
  lemma GeneratedLength(gs: GameState)
    ensures |AtomicActionsOf(gs)| <= 4 + 3 * |gs.activeComePoints|
  {
    if gs.currentPoint.Some? {
      var p := gs.currentPoint.value;
      UnusedSpec(LegalOddsBetAmounts(IntToString(p), MaxMultiplier), gs.passLineOddsLevels);
      LegalOddsForPoint(p);
      ComeOddsBlocksLength(gs.activeComePoints, gs.comeOddsLevels);
    }
  }

  /** Levels stored only under integer keys are never found by the
      generator's string lookup, so every legal come-odds amount is offered
      again. */
  lemma IntKeyedLevelsIgnored(gs: GameState, pt: int, amt: int)
    requires gs.currentPoint.Some?
    requires forall k | k in gs.comeOddsLevels :: k.IntKey?
    requires pt in gs.activeComePoints && amt in LegalOddsBetAmounts(IntToString(pt), MaxMultiplier)
    ensures ComeOddsLabel(amt, IntToString(pt)) in AtomicActionsOf(gs)
  {
    ComeOddsOffered(gs, pt, amt);
  }

  /** The pass-line odds loop of `generate_atomic_actions`. */
  method CollectPassLineOdds(point: int, used: seq<real>) returns (labels: seq<string>)
    ensures labels == PassLineOddsBlock(point, used)
  {
    labels := [];
    var available := LegalOddsBetAmounts(IntToString(point), MaxMultiplier);
    var i := 0;
    while i < |available|
      invariant 0 <= i <= |available|
      invariant labels == PassLineOddsLabels(Unused(available[..i], used))
    {
      var amt := available[i];
      UnusedStep(available, i, used);
      if amt as real !in used {
        ghost var before := Unused(available[..i], used);
        assert (before + [amt])[..|before|] == before;
        labels := labels + [PassLineOddsLabel(amt)];
      }
      i := i + 1;
    }
    assert available[..i] == available;
  }

  /** The inner come-odds loop of `generate_atomic_actions`, for one come point. */
  method CollectComeOdds(pt: int, levels: map<PyKey, seq<real>>) returns (labels: seq<string>)
    ensures labels == ComeOddsBlock(pt, levels)
  {
    labels := [];
    var ptStr := IntToString(pt);
    var amounts := LegalOddsBetAmounts(ptStr, MaxMultiplier);
    var used := ComeUsed(levels, pt);
    var j := 0;
    while j < |amounts|
      invariant 0 <= j <= |amounts|
      invariant labels == ComeOddsLabels(Unused(amounts[..j], used), ptStr)
    {
      var amt := amounts[j];
      UnusedStep(amounts, j, used);
      if amt as real !in used {
        ghost var before := Unused(amounts[..j], used);
        assert (before + [amt])[..|before|] == before;
        labels := labels + [ComeOddsLabel(amt, ptStr)];
      }
      j := j + 1;
    }
    assert amounts[..j] == amounts;
  }

  /** The outer loop over active come points of `generate_atomic_actions`. */
  method CollectAllComeOdds(points: seq<int>, levels: map<PyKey, seq<real>>) returns (labels: seq<string>)
    ensures labels == ComeOddsBlocks(points, levels)
  {
    labels := [];
    ghost var blocks := ComeOddsBlockList(points, levels);
    var k := 0;
    while k < |points|
      invariant 0 <= k <= |points|
      invariant labels == Flatten(blocks[..k])
    {
      var block := CollectComeOdds(points[k], levels);
      FlattenStep(blocks, k);
      labels := labels + block;
      k := k + 1;
    }
    assert blocks[..k] == blocks;
  }

  class AtomicActionGenerator {
    var latestAtomicActions: seq<string>

    constructor ()
      ensures latestAtomicActions == []
    {
      latestAtomicActions := [];
    }

    /** `generate_atomic_actions`: returns `AtomicActionsOf(gs)`, and records
        it as the latest list unless it returned early for want of a point. */
    method GenerateAtomicActions(gs: GameState) returns (actions: seq<string>)
      modifies this
      ensures actions == AtomicActionsOf(gs)
      ensures latestAtomicActions == if gs.currentPoint.None? then old(latestAtomicActions) else actions
    {
      actions := [];
      if gs.currentPoint.None? {
        return;
      }
      var passBlock := CollectPassLineOdds(gs.currentPoint.value, gs.passLineOddsLevels);
      var comeBlocks := CollectAllComeOdds(gs.activeComePoints, gs.comeOddsLevels);
      actions := passBlock + ComeFlatBlock(gs.comeFlatActive) + comeBlocks;
      latestAtomicActions := actions;
    }
  }
}
