/** `build_game_state`: the snapshot of an agent's table that the
    atomic-action generator reads. */
module TableState {
  import opened Wrappers
  import opened Text
  import opened Labels
  import opened Seqs
  import opened Sorting
  import opened Bets
  import opened AtomicActions

  predicate IsPassOdds(b: Bet) { b.kind == "pass_line_odds" }

  /** Some bet typed `pass_line_odds` carries multiplier `m`. */
  predicate PassOddsWithMultiplier(bets: seq<Bet>, m: int)
  {
    exists b :: b in bets && b.kind == "pass_line_odds" && b.multiplier == Some(m)
  }

  /** Some bet typed `come_odds` on point `pt` carries multiplier `m`. */
  predicate ComeOddsWithMultiplier(bets: seq<Bet>, pt: int, m: int)
  {
    exists b :: b in bets && b.kind == "come_odds" && b.point == Some(pt) && b.multiplier == Some(m)
  }

  /** Bets typed exactly `come_odds` whose `point` is `pt`. */
  function ComeOddsOn(pt: int): Bet -> bool
  {
    (b: Bet) => b.kind == "come_odds" && b.point == Some(pt)
  }

  /** `[bet['multiplier'] for bet in bets]`: None when one of them has no
      multiplier (the KeyError). */
  function Multipliers(bets: seq<Bet>): Option<seq<int>>
  {
    if bets == [] then Some([])
    else
      match Multipliers(bets[..|bets| - 1])
      case None => None
      case Some(ms) =>
        if bets[|bets| - 1].multiplier.None? then None else Some(ms + [bets[|bets| - 1].multiplier.value])
  }

  /** The list raises exactly when some bet lacks a multiplier; otherwise it
      holds each bet's multiplier. */
  lemma {:induction false} MultipliersSpec(bets: seq<Bet>)
    ensures Multipliers(bets).None? <==> exists b :: b in bets && b.multiplier.None?
    ensures Multipliers(bets).Some? ==> |Multipliers(bets).value| == |bets|
    ensures Multipliers(bets).Some? ==> forall m :: m in Multipliers(bets).value <==> exists b :: b in bets && b.multiplier == Some(m)
  {
    if bets != [] {
      var init := bets[..|bets| - 1];
      var last := bets[|bets| - 1];
      MultipliersSpec(init);
      assert bets == init + [last];
      assert forall b :: b in bets <==> b in init || b == last;
    }
  }

  function ToReals(s: seq<int>): (r: seq<real>)
    ensures |r| == |s|
  {
    seq(|s|, i requires 0 <= i < |s| => s[i] as real)
  }

  lemma {:induction false} ToRealsMembers(s: seq<int>)
    ensures forall m: int :: m as real in ToReals(s) <==> m in s
    ensures forall i, j | 0 <= i < |s| && 0 <= j < |s| :: ToReals(s)[i] <= ToReals(s)[j] <==> s[i] <= s[j]
  {
    forall m: int ensures m as real in ToReals(s) <==> m in s {
      if m as real in ToReals(s) {
        var i :| 0 <= i < |s| && ToReals(s)[i] == m as real;
      }
      if m in s {
        var i :| 0 <= i < |s| && s[i] == m;
        assert ToReals(s)[i] == m as real;
      }
    }
  }

  lemma {:induction false} FilterKinds(bets: seq<Bet>, pt: int)
    ensures forall b :: b in Filter(bets, IsPassOdds) <==> b in bets && b.kind == "pass_line_odds"
    ensures forall b :: b in Filter(bets, ComeOddsOn(pt)) <==> b in bets && b.kind == "come_odds" && b.point == Some(pt)
  {
    forall b ensures b in Filter(bets, IsPassOdds) <==> b in bets && b.kind == "pass_line_odds" {
      FilterMembers(bets, IsPassOdds, b);
    }
    forall b ensures b in Filter(bets, ComeOddsOn(pt)) <==> b in bets && b.kind == "come_odds" && b.point == Some(pt) {
      FilterMembers(bets, ComeOddsOn(pt), b);
    }
  }

  /** `sorted(set(ms)) if ms else []` for the come-odds multipliers on `pt`. */
  function ComeLevels(bets: seq<Bet>, pt: int): Option<seq<real>>
  {
    var ms := Multipliers(Filter(bets, ComeOddsOn(pt)));
    IntLeqIsTotalOrder();
    if ms.None? then None else Some(ToReals(SortedDistinct(ms.value, IntLeq)))
  }

  function ComeLevelsOf(bets: seq<Bet>): int -> Option<seq<real>>
  {
    pt => ComeLevels(bets, pt)
  }

  /** The dictionary the loop over the sorted come points fills, keyed by the
      integer point; None once a point's multipliers raise. */
  function LevelsFor(points: seq<int>, levelsOf: int -> Option<seq<real>>): Option<map<PyKey, seq<real>>>
  {
    if points == [] then Some(map[])
    else
      match LevelsFor(points[..|points| - 1], levelsOf)
      case None => None
      case Some(m) =>
        var pt := points[|points| - 1];
        match levelsOf(pt)
        case None => None
        case Some(ls) => Some(m[IntKey(pt) := ls])
  }

  /** `sorted(bet['multiplier'] for bet in bets if bet['type'] == 'pass_line_odds')`. */
  function PassLevels(bets: seq<Bet>): Option<seq<real>>
  {
    var ms := Multipliers(Filter(bets, IsPassOdds));
    IntLeqIsTotalOrder();
    if ms.None? then None else Some(ToReals(Sort(ms.value, IntLeq)))
  }

  /** `any(bet['type'] == 'come_flat' for bet in bets)` */
  predicate AnyComeFlat(bets: seq<Bet>)
  {
    exists i :: 0 <= i < |bets| && bets[i].kind == "come_flat"
  }

  /** `build_game_state(agent)`, from the agent's bets, come points, point
      and table minimum. */
  function BuildGameState(bets: seq<Bet>, comePoints: set<int>, currentPoint: Option<int>, tableMin: real): Result<GameState>
  {
    match PassLevels(bets)
    case None => Err(KeyError("multiplier"))
    case Some(plo) =>
      match LevelsFor(SortedSet(comePoints), ComeLevelsOf(bets))
      case None => Err(KeyError("multiplier"))
      case Some(levels) => Ok(GameState(plo, AnyComeFlat(bets), SortedSet(comePoints), levels, currentPoint, tableMin))
  }

  lemma {:induction false} LevelsForSpec(points: seq<int>, levelsOf: int -> Option<seq<real>>)
    ensures LevelsFor(points, levelsOf).None? <==> exists i :: 0 <= i < |points| && levelsOf(points[i]).None?
    ensures LevelsFor(points, levelsOf).Some? ==>
      forall k :: k in LevelsFor(points, levelsOf).value <==> k.IntKey? && k.i in points
    ensures LevelsFor(points, levelsOf).Some? ==>
      forall i | 0 <= i < |points| :: LevelsFor(points, levelsOf).value[IntKey(points[i])] == levelsOf(points[i]).value
  {
    if points != [] {
      var init := points[..|points| - 1];
      LevelsForSpec(init, levelsOf);
      assert points == init + [points[|points| - 1]];
      if exists i :: 0 <= i < |init| && levelsOf(init[i]).None? {
        var i :| 0 <= i < |init| && levelsOf(init[i]).None?;
        assert points[i] == init[i];
      }
      if LevelsFor(points, levelsOf).Some? {
        forall i | 0 <= i < |points|
          ensures LevelsFor(points, levelsOf).value[IntKey(points[i])] == levelsOf(points[i]).value
        {
          if i < |init| && points[i] != points[|points| - 1] {
            assert points[i] == init[i];
          }
        }
      }
    }
  }

  /** A pass-line odds bet without a multiplier makes the comprehension raise. */
  lemma {:induction false} PassLevelsRaise(bets: seq<Bet>)
    ensures PassLevels(bets).None? <==> exists b :: b in bets && b.kind == "pass_line_odds" && b.multiplier.None?
  {
    FilterKinds(bets, 0);
    MultipliersSpec(Filter(bets, IsPassOdds));
  }

  lemma {:induction false} ComeLevelsRaise(bets: seq<Bet>, pt: int)
    ensures ComeLevels(bets, pt).None? <==> exists b :: b in bets && b.kind == "come_odds" && b.point == Some(pt) && b.multiplier.None?
  {
    FilterKinds(bets, pt);
    MultipliersSpec(Filter(bets, ComeOddsOn(pt)));
  }

  /** `build_game_state` raises KeyError exactly when a bet typed
      `pass_line_odds`, or typed `come_odds` on an active come point, has no
      multiplier. */
  lemma {:induction false} BuildGameStateRaises(bets: seq<Bet>, comePoints: set<int>, currentPoint: Option<int>, tableMin: real)
    ensures BuildGameState(bets, comePoints, currentPoint, tableMin).Err? <==>
      (exists b :: b in bets && b.kind == "pass_line_odds" && b.multiplier.None?) ||
      (exists pt :: pt in comePoints && exists b :: b in bets && b.kind == "come_odds" && b.point == Some(pt) && b.multiplier.None?)
    ensures BuildGameState(bets, comePoints, currentPoint, tableMin).Err? ==>
      BuildGameState(bets, comePoints, currentPoint, tableMin).error == KeyError("multiplier")
  {
    var points := SortedSet(comePoints);
    PassLevelsRaise(bets);
    LevelsForSpec(points, ComeLevelsOf(bets));
    forall pt ensures ComeLevels(bets, pt).None? <==> exists b :: b in bets && b.kind == "come_odds" && b.point == Some(pt) && b.multiplier.None? {
      ComeLevelsRaise(bets, pt);
    }
    if exists pt :: pt in comePoints && ComeLevels(bets, pt).None? {
      var pt :| pt in comePoints && ComeLevels(bets, pt).None?;
      var j :| 0 <= j < |points| && points[j] == pt;
    }
  }

  lemma {:induction false} ToRealsSorted(s: seq<int>)
    requires SortedBy(s, IntLeq)
    ensures SortedBy(ToReals(s), RealLeq)
  {
    forall i, j | 0 <= i < j < |s| ensures RealLeq(ToReals(s)[i], ToReals(s)[j]) {
      assert IntLeq(s[i], s[j]);
    }
  }

  /** The pass-line odds levels are in ascending order, one per bet typed
      `pass_line_odds`. */
  lemma {:induction false} PassLevelsSorted(bets: seq<Bet>)
    requires PassLevels(bets).Some?
    ensures SortedBy(PassLevels(bets).value, RealLeq)
    ensures |PassLevels(bets).value| == |Filter(bets, IsPassOdds)|
  {
    IntLeqIsTotalOrder();
    var pass := Filter(bets, IsPassOdds);
    MultipliersSpec(pass);
    var ms := Multipliers(pass).value;
    SortMembers(ms, IntLeq);
    ToRealsSorted(Sort(ms, IntLeq));
  }

  /** The pass-line odds levels are the multipliers of the bets typed
      `pass_line_odds`. */
  lemma {:induction false} PassLevelsMembers(bets: seq<Bet>)
    requires PassLevels(bets).Some?
    ensures forall m: int :: m as real in PassLevels(bets).value <==> PassOddsWithMultiplier(bets, m)
  {
    var pass := Filter(bets, IsPassOdds);
    var ms := Multipliers(pass).value;
    SortedRealsMembers(ms);
    var levels := ToReals(Sort(ms, IntLeq));
    assert PassLevels(bets).value == levels;
    PassMultipliers(bets);
    forall m: int ensures m as real in levels <==> PassOddsWithMultiplier(bets, m) {
      assert m as real in levels <==> m in ms;
    }
  }

  lemma {:induction false} SortedRealsMembers(ms: seq<int>)
    ensures IsTotalOrder(IntLeq)
    ensures forall m: int :: m as real in ToReals(Sort(ms, IntLeq)) <==> m in ms
  {
    IntLeqIsTotalOrder();
    SortMembers(ms, IntLeq);
    ToRealsMembers(Sort(ms, IntLeq));
  }

  lemma {:induction false} PassMultipliers(bets: seq<Bet>)
    requires Multipliers(Filter(bets, IsPassOdds)).Some?
    ensures forall m: int :: m in Multipliers(Filter(bets, IsPassOdds)).value <==> PassOddsWithMultiplier(bets, m)
  {
    var pass := Filter(bets, IsPassOdds);
    MultipliersSpec(pass);
    var ms := Multipliers(pass).value;
    forall m: int ensures m in ms <==> PassOddsWithMultiplier(bets, m) {
      if m in ms {
        var b :| b in pass && b.multiplier == Some(m);
        FilterMembers(bets, IsPassOdds, b);
      }
      if PassOddsWithMultiplier(bets, m) {
        var b :| b in bets && b.kind == "pass_line_odds" && b.multiplier == Some(m);
        FilterMembers(bets, IsPassOdds, b);
      }
    }
  }

  /** The come-odds levels of one point: its come-odds multipliers,
      ascending, without repeats. */
  lemma {:induction false} ComeLevelsMembers(bets: seq<Bet>, pt: int)
    requires ComeLevels(bets, pt).Some?
    ensures StrictlySortedBy(ComeLevels(bets, pt).value, RealLeq)
    ensures forall m: int :: m as real in ComeLevels(bets, pt).value <==> ComeOddsWithMultiplier(bets, pt, m)
  {
    IntLeqIsTotalOrder();
    var on := Filter(bets, ComeOddsOn(pt));
    var ms := Multipliers(on).value;
    var d := SortedDistinct(ms, IntLeq);
    ToRealsMembers(d);
    var ls := ComeLevels(bets, pt).value;
    assert ls == ToReals(d);
    forall i, j | 0 <= i < j < |ls| ensures RealLeq(ls[i], ls[j]) && ls[i] != ls[j] {
      assert IntLeq(d[i], d[j]) && d[i] != d[j];
    }
    ComeMultipliers(bets, pt);
    forall m: int ensures m as real in ls <==> ComeOddsWithMultiplier(bets, pt, m) {
      assert m as real in ls <==> m in d;
    }
  }

  lemma {:induction false} ComeMultipliers(bets: seq<Bet>, pt: int)
    requires Multipliers(Filter(bets, ComeOddsOn(pt))).Some?
    ensures forall m: int :: m in Multipliers(Filter(bets, ComeOddsOn(pt))).value <==> ComeOddsWithMultiplier(bets, pt, m)
  {
    var on := Filter(bets, ComeOddsOn(pt));
    MultipliersSpec(on);
    var ms := Multipliers(on).value;
    forall m: int ensures m in ms <==> ComeOddsWithMultiplier(bets, pt, m) {
      if m in ms {
        var b :| b in on && b.multiplier == Some(m);
        FilterMembers(bets, ComeOddsOn(pt), b);
      }
      if ComeOddsWithMultiplier(bets, pt, m) {
        var b :| b in bets && b.kind == "come_odds" && b.point == Some(pt) && b.multiplier == Some(m);
        FilterMembers(bets, ComeOddsOn(pt), b);
      }
    }
  }

  /** The fields of a state that was built: the sorted pass-line odds
      multipliers, `come_flat_active` when any bet is typed `come_flat`,
      the come points ascending, the point and the table minimum. */
  lemma {:induction false} BuildGameStateFields(bets: seq<Bet>, comePoints: set<int>, currentPoint: Option<int>, tableMin: real)
    requires BuildGameState(bets, comePoints, currentPoint, tableMin).Ok?
    ensures var gs := BuildGameState(bets, comePoints, currentPoint, tableMin).value;
      && PassLevels(bets) == Some(gs.passLineOddsLevels)
      && (gs.comeFlatActive <==> exists b :: b in bets && b.kind == "come_flat")
      && (forall x :: x in gs.activeComePoints <==> x in comePoints)
      && (forall i, j | 0 <= i < j < |gs.activeComePoints| :: gs.activeComePoints[i] < gs.activeComePoints[j])
      && gs.currentPoint == currentPoint && gs.tableMin == tableMin
  {
    if exists b :: b in bets && b.kind == "come_flat" {
      var b :| b in bets && b.kind == "come_flat";
      var i :| 0 <= i < |bets| && bets[i] == b;
    }
  }

  /** The come-odds levels of a state that was built are keyed by the
      integer point, one entry per come point, each holding that point's
      levels. */
  lemma {:induction false} BuildGameStateLevels(bets: seq<Bet>, comePoints: set<int>, currentPoint: Option<int>, tableMin: real)
    requires BuildGameState(bets, comePoints, currentPoint, tableMin).Ok?
    ensures var gs := BuildGameState(bets, comePoints, currentPoint, tableMin).value;
      && (forall k :: k in gs.comeOddsLevels <==> k.IntKey? && k.i in comePoints)
      && (forall pt | pt in comePoints :: Some(gs.comeOddsLevels[IntKey(pt)]) == ComeLevels(bets, pt))
  {
    var points := SortedSet(comePoints);
    var levelsOf := ComeLevelsOf(bets);
    var levels := BuiltLevels(bets, comePoints, currentPoint, tableMin);
    LevelsForSpec(points, levelsOf);
    forall pt | pt in comePoints
      ensures Some(levels[IntKey(pt)]) == ComeLevels(bets, pt)
    {
      var k :| 0 <= k < |points| && points[k] == pt;
      assert levelsOf(points[k]) == ComeLevels(bets, pt);
    }
  }

  lemma {:induction false} BuiltLevels(bets: seq<Bet>, comePoints: set<int>, currentPoint: Option<int>, tableMin: real)
      returns (levels: map<PyKey, seq<real>>)
    requires BuildGameState(bets, comePoints, currentPoint, tableMin).Ok?
    ensures LevelsFor(SortedSet(comePoints), ComeLevelsOf(bets)) == Some(levels)
    ensures BuildGameState(bets, comePoints, currentPoint, tableMin).value.comeOddsLevels == levels
  {
    levels := LevelsFor(SortedSet(comePoints), ComeLevelsOf(bets)).value;
  }

  /** Because the levels are keyed by the integer point and the generator
      looks them up by its string, every legal come-odds amount on an active
      come point is offered again, whatever has already been bet. */
  lemma {:induction false} BuiltStateReoffersComeOdds(bets: seq<Bet>, comePoints: set<int>, currentPoint: Option<int>, tableMin: real, pt: int, amt: int)
    requires BuildGameState(bets, comePoints, currentPoint, tableMin).Ok? && currentPoint.Some?
    requires pt in comePoints && amt in LegalOddsBetAmounts(IntToString(pt), MaxMultiplier)
    ensures ComeOddsLabel(amt, IntToString(pt)) in AtomicActionsOf(BuildGameState(bets, comePoints, currentPoint, tableMin).value)
  {
    BuildGameStateFields(bets, comePoints, currentPoint, tableMin);
    BuildGameStateLevels(bets, comePoints, currentPoint, tableMin);
    IntKeyedLevelsIgnored(BuildGameState(bets, comePoints, currentPoint, tableMin).value, pt, amt);
  }

  /** The loop of `build_game_state` over the sorted come points: one
      dictionary entry per point, stopping at the first that raises. */
  method FillComeLevels(bets: seq<Bet>, points: seq<int>) returns (r: Option<map<PyKey, seq<real>>>)
    ensures r == LevelsFor(points, ComeLevelsOf(bets))
  {
    var levelsOf := ComeLevelsOf(bets);
    var levels: map<PyKey, seq<real>> := map[];
    var i := 0;
    while i < |points|
      invariant 0 <= i <= |points|
      invariant LevelsFor(points[..i], levelsOf) == Some(levels)
    {
      assert points[..i + 1][..i] == points[..i];
      var ls := levelsOf(points[i]);
      if ls.None? {
        LevelsForNone(points, levelsOf, i + 1);
        return None;
      }
      levels := levels[IntKey(points[i]) := ls.value];
      i := i + 1;
    }
    assert points[..i] == points;
    r := Some(levels);
  }

  /** `build_game_state`: the comprehension over the pass-line odds bets,
      then the loop over the sorted come points. */
  method BuildGameStateLoop(bets: seq<Bet>, comePoints: set<int>, currentPoint: Option<int>, tableMin: real) returns (r: Result<GameState>)
    ensures r == BuildGameState(bets, comePoints, currentPoint, tableMin)
  {
    var plo := PassLevels(bets);
    if plo.None? {
      return Err(KeyError("multiplier"));
    }
    var points := SortedSet(comePoints);
    var levels := FillComeLevels(bets, points);
    if levels.None? {
      return Err(KeyError("multiplier"));
    }
    r := Ok(GameState(plo.value, AnyComeFlat(bets), points, levels.value, currentPoint, tableMin));
  }

  /** Once a prefix of the points raises, so does the whole loop. */
  lemma {:induction false} LevelsForNone(points: seq<int>, levelsOf: int -> Option<seq<real>>, n: nat)
    requires n <= |points| && LevelsFor(points[..n], levelsOf).None?
    ensures LevelsFor(points, levelsOf).None?
    decreases |points| - n
  {
    if n < |points| {
      assert points[..n + 1][..n] == points[..n];
      LevelsForNone(points, levelsOf, n + 1);
    } else {
      assert points[..n] == points;
    }
  }
}
