/** The classical agent's own view of the table: the two regular-expression
    label parsers and the game-state dictionary it builds from its bets
    before asking the generator for atomic actions. */
module ClassicalState {
  import opened Wrappers
  import opened Text
  import opened Labels
  import opened Seqs
  import opened Sorting
  import opened Bets
  import opened AtomicActions
  import opened TableState

  const OddsPrefix: string := "pass_line_odds_$"
  const ComeOddsPrefix: string := "come_odds_$"

  /** The run of decimal digits at the front of `s`, as long as it goes
      (what a greedy `\d+` consumes). */
  function LeadingDigits(s: string): (r: string)
    ensures AllDigits(r) && r <= s
    ensures |r| < |s| ==> !IsDigit(s[|r|])
  {
    if s == [] || !IsDigit(s[0]) then [] else [s[0]] + LeadingDigits(s[1..])
  }

  /** A run of digits followed by something that does not start with a
      digit is read up to its end. */
  lemma {:induction false} LeadingDigitsOf(d: string, rest: string)
    requires AllDigits(d)
    requires rest == [] || !IsDigit(rest[0])
    ensures LeadingDigits(d + rest) == d
  {
    if d != [] {
      assert (d + rest)[1..] == d[1..] + rest;
      LeadingDigitsOf(d[1..], rest);
    } else {
      assert d + rest == rest;
    }
  }

  /** `_extract_odds_amount`: `re.match(r'pass_line_odds_\$(\d+)', t)`, the
      integer value of the digits after the prefix, or None when the prefix
      or the first digit is missing. Nothing after the digits is looked at. */
  function ExtractOddsAmount(t: string): Option<int>
  {
    if StartsWith(t, OddsPrefix) && LeadingDigits(t[|OddsPrefix|..]) != [] then
      Some(DigitsValue(LeadingDigits(t[|OddsPrefix|..])))
    else
      None
  }

  /** `([4-6]|[8-9]|10)` at the front of `s`, the alternatives tried in order. */
  function PointAlternative(s: string): (r: Option<int>)
    ensures r.Some? ==> r.value in {4, 5, 6, 8, 9, 10}
  {
    if |s| >= 1 && '4' <= s[0] <= '6' then Some(s[0] as int - '0' as int)
    else if |s| >= 1 && '8' <= s[0] <= '9' then Some(s[0] as int - '0' as int)
    else if |s| >= 2 && s[0] == '1' && s[1] == '0' then Some(10)
    else None
  }

  /** `_parse_come_odds`: `re.match(r'come_odds_\$(\d+)_([4-6]|[8-9]|10)', t)`
      as (amount, point), or None for the `(None, None)` of a failed match.
      Backtracking cannot help the greedy `\d+`: a shorter run is followed
      by a digit, not by `_`. There is no end anchor, so `_40` reads as 4. */
  function ParseComeOdds(t: string): (r: Option<(int, int)>)
    ensures r.Some? ==> r.value.0 >= 0 && r.value.1 in {4, 5, 6, 8, 9, 10}
  {
    if !StartsWith(t, ComeOddsPrefix) then None
    else
      var rest := t[|ComeOddsPrefix|..];
      var digits := LeadingDigits(rest);
      var after := rest[|digits|..];
      if digits == [] || after == [] || after[0] != '_' then None
      else
        match PointAlternative(after[1..])
        case None => None
        case Some(p) => Some((DigitsValue(digits) as int, p))
  }

  /** Reading back a pass-line odds label gives its amount, whatever follows
      that does not start with a digit. */
  lemma ExtractOddsAmountOfLabel(a: nat, suffix: string)
    requires suffix == [] || !IsDigit(suffix[0])
    ensures ExtractOddsAmount(PassLineOddsLabel(a) + suffix) == Some(a)
  {
    var t := PassLineOddsLabel(a) + suffix;
    var d := IntToString(a);
    NatToStringValue(a);
    assert t == OddsPrefix + (d + suffix);
    assert t[|OddsPrefix|..] == d + suffix;
    LeadingDigitsOf(d, suffix);
  }

  /** The point string `str(p)` of every point passes the point alternation. */
  lemma PointAlternativeOfPoint(p: int, suffix: string)
    requires p in {4, 5, 6, 8, 9, 10}
    ensures PointAlternative(IntToString(p) + suffix) == Some(p)
  {
    IntToStringOfPoints();
  }

  /** The match on a string cut into its parts: the prefix, a run of
      digits, `_`, then whatever the point alternation sees. */
  lemma ParseComeOddsParts(t: string, d: string, rest: string)
    requires t == ComeOddsPrefix + d + ['_'] + rest
    requires AllDigits(d) && d != []
    ensures ParseComeOdds(t) == match PointAlternative(rest)
      case None => None
      case Some(p) => Some((DigitsValue(d) as int, p))
  {
    var tail := ['_'] + rest;
    assert t == ComeOddsPrefix + (d + tail);
    assert t[|ComeOddsPrefix|..] == d + tail;
    LeadingDigitsOf(d, tail);
    assert (d + tail)[|d|..] == tail;
    assert tail[1..] == rest;
  }

  /** Reading back a come-odds label gives its amount and point, whatever
      text follows it. */
  lemma ParseComeOddsOfLabel(a: nat, p: int, suffix: string)
    requires p in {4, 5, 6, 8, 9, 10}
    ensures ParseComeOdds(ComeOddsLabel(a, IntToString(p)) + suffix) == Some((a, p))
  {
    var d := IntToString(a);
    NatToStringValue(a);
    NatToStringDigits(a);
    var rest := IntToString(p) + suffix;
    assert ComeOddsLabel(a, IntToString(p)) + suffix == ComeOddsPrefix + d + ['_'] + rest;
    ParseComeOddsParts(ComeOddsLabel(a, IntToString(p)) + suffix, d, rest);
    PointAlternativeOfPoint(p, suffix);
  }

  /** `bet['type'].startswith('pass_line_odds_')` */
  predicate PassOddsTyped(b: Bet) { StartsWith(b.kind, "pass_line_odds_") }

  /** `bet['type'].startswith('come_odds_')` */
  predicate ComeOddsTyped(b: Bet) { StartsWith(b.kind, "come_odds_") }

  /** The comprehension `[self._extract_odds_amount(bet['type']) for bet in
      self.bets if bet['type'].startswith('pass_line_odds_')]`. */
  function OddsAmounts(bets: seq<Bet>): (r: seq<Option<int>>)
    ensures |r| == |Filter(bets, PassOddsTyped)|
  {
    var f := Filter(bets, PassOddsTyped);
    seq(|f|, i requires 0 <= i < |f| => ExtractOddsAmount(f[i].kind))
  }

  /** The amounts that were extracted, in order. */
  function Somes(s: seq<Option<int>>): seq<int>
  {
    if s == [] then []
    else Somes(s[..|s| - 1]) + (if s[|s| - 1].Some? then [s[|s| - 1].value] else [])
  }

  lemma {:induction false} SomesMembers(s: seq<Option<int>>, x: int)
    ensures x in Somes(s) <==> Some(x) in s
  {
    if s != [] {
      SomesMembers(s[..|s| - 1], x);
      assert s == s[..|s| - 1] + [s[|s| - 1]];
    }
  }

  /** `sorted(...)` of the extracted amounts. Sorting compares every element
      once there are two or more, and comparing None with anything raises
      TypeError. A lone None compares equal to no amount, so it is kept as no
      level at all. */
  function SortedOddsLevels(amounts: seq<Option<int>>): Result<seq<real>>
  {
    IntLeqIsTotalOrder();
    if |amounts| >= 2 && None in amounts then Err(TypeError)
    else Ok(ToReals(Sort(Somes(amounts), IntLeq)))
  }

  /** The dictionary key a come-odds bet is filed under: `str(pt)` of the
      parsed point, `'None'` when the type does not parse. */
  function ComeOddsKey(kind: string): PyKey
  {
    match ParseComeOdds(kind)
    case Some((_, pt)) => StrKey(IntToString(pt))
    case None => StrKey("None")
  }

  /** One pass of the loop: a bet typed `come_odds_...` appends its amount to
      the list under its key, creating the list when the key is new. */
  function AddComeLevel(levels: map<PyKey, seq<real>>, b: Bet): map<PyKey, seq<real>>
  {
    if ComeOddsTyped(b) then
      var k := ComeOddsKey(b.kind);
      levels[k := (if k in levels then levels[k] else []) + [b.amount]]
    else
      levels
  }

  /** `come_odds_levels` after the loop over the bets. */
  function ClassicalComeLevels(bets: seq<Bet>): map<PyKey, seq<real>>
  {
    if bets == [] then map[] else AddComeLevel(ClassicalComeLevels(bets[..|bets| - 1]), bets[|bets| - 1])
  }

  /** The bets filed under key `k`. */
  function FiledUnder(k: PyKey): Bet -> bool
  {
    b => ComeOddsTyped(b) && ComeOddsKey(b.kind) == k
  }

  function Amounts(bets: seq<Bet>): (r: seq<real>)
    ensures |r| == |bets|
  {
    seq(|bets|, i requires 0 <= i < |bets| => bets[i].amount)
  }

  /** A key is present exactly when some come-odds bet is filed under it, and
      it holds the amounts of those bets in the order of the bet list. */
  lemma {:induction false} ClassicalComeLevelsSpec(bets: seq<Bet>, k: PyKey)
    ensures k in ClassicalComeLevels(bets) <==> Filter(bets, FiledUnder(k)) != []
    ensures k in ClassicalComeLevels(bets) ==> ClassicalComeLevels(bets)[k] == Amounts(Filter(bets, FiledUnder(k)))
  {
    if bets != [] {
      var init := bets[..|bets| - 1];
      var last := bets[|bets| - 1];
      ClassicalComeLevelsSpec(init, k);
      FilterStep(bets, FiledUnder(k), |bets| - 1);
      assert bets[..|bets| - 1] == init && bets[..|bets|] == bets;
      var f := Filter(init, FiledUnder(k));
      if FiledUnder(k)(last) {
        assert Amounts(f + [last]) == Amounts(f) + [last.amount];
      }
    }
  }

  /** `'come_flat_active'`: some `come_flat` bet has no `point` key. */
  predicate PendingComeExists(bets: seq<Bet>)
  {
    exists i :: 0 <= i < |bets| && PendingCome(bets[i])
  }

  /** The classical agent's `game_state` dictionary, or the TypeError raised
      while sorting its pass-line odds amounts. */
  function ClassicalGameState(bets: seq<Bet>, comePoints: set<int>, currentPoint: Option<int>, tableMin: real): Result<GameState>
  {
    match SortedOddsLevels(OddsAmounts(bets))
    case Err(e) => Err(e)
    case Ok(plo) =>
      Ok(GameState(plo, PendingComeExists(bets), SortedSet(comePoints), ClassicalComeLevels(bets), currentPoint, tableMin))
  }

  /** Building the state raises TypeError exactly when two or more bets are
      typed `pass_line_odds_...` and one of them carries no readable amount. */
  lemma ClassicalGameStateRaises(bets: seq<Bet>, comePoints: set<int>, currentPoint: Option<int>, tableMin: real)
    ensures ClassicalGameState(bets, comePoints, currentPoint, tableMin).Err? <==>
      |Filter(bets, PassOddsTyped)| >= 2 && exists i :: 0 <= i < |Filter(bets, PassOddsTyped)| && ExtractOddsAmount(Filter(bets, PassOddsTyped)[i].kind).None?
    ensures ClassicalGameState(bets, comePoints, currentPoint, tableMin).Err? ==>
      ClassicalGameState(bets, comePoints, currentPoint, tableMin).error == TypeError
  {
    var amounts := OddsAmounts(bets);
    var f := Filter(bets, PassOddsTyped);
    if None in amounts {
      var i :| 0 <= i < |amounts| && amounts[i] == None;
      assert ExtractOddsAmount(f[i].kind).None?;
    }
    if exists i :: 0 <= i < |f| && ExtractOddsAmount(f[i].kind).None? {
      var i :| 0 <= i < |f| && ExtractOddsAmount(f[i].kind).None?;
      assert amounts[i] == None;
    }
  }

  /** The fields of a state that was built: the point and the come-odds
      levels as computed, and the pass-line odds levels holding exactly the
      amounts read from the bets' types. */
  lemma ClassicalGameStateFields(bets: seq<Bet>, comePoints: set<int>, currentPoint: Option<int>, tableMin: real)
    requires ClassicalGameState(bets, comePoints, currentPoint, tableMin).Ok?
    ensures var gs := ClassicalGameState(bets, comePoints, currentPoint, tableMin).value;
      && gs.currentPoint == currentPoint && gs.tableMin == tableMin
      && gs.comeOddsLevels == ClassicalComeLevels(bets)
      && (gs.comeFlatActive <==> PendingComeExists(bets))
      && (forall x :: x in gs.activeComePoints <==> x in comePoints)
      && forall m: int :: m as real in gs.passLineOddsLevels <==> Some(m) in OddsAmounts(bets)
  {
    var amounts := OddsAmounts(bets);
    IntLeqIsTotalOrder();
    var sorted := Sort(Somes(amounts), IntLeq);
    SortMembers(Somes(amounts), IntLeq);
    ToRealsMembers(sorted);
    forall m: int ensures m in sorted <==> Some(m) in amounts {
      SomesMembers(amounts, m);
    }
  }

  /** The pass-line odds label for `a` is typed `pass_line_odds_...` and
      reads back as `a`. */
  lemma PassOddsLabelRead(a: nat, b: Bet)
    requires b.kind == PassLineOddsLabel(a)
    ensures PassOddsTyped(b) && ExtractOddsAmount(b.kind) == Some(a)
  {
    ExtractOddsAmountOfLabel(a, []);
    assert PassLineOddsLabel(a) + [] == PassLineOddsLabel(a);
    assert OddsPrefix[..15] == "pass_line_odds_";
    StartsWithJoin("pass_line_odds_", OddsPrefix, IntToString(a));
  }

  /** A bet typed with the pass-line odds label for `a` yields the amount `a`. */
  lemma PassOddsBetAmount(bets: seq<Bet>, a: nat)
    requires exists b :: b in bets && b.kind == PassLineOddsLabel(a)
    ensures Some(a) in OddsAmounts(bets)
  {
    var b :| b in bets && b.kind == PassLineOddsLabel(a);
    PassOddsLabelRead(a, b);
    var f := Filter(bets, PassOddsTyped);
    FilterMembers(bets, PassOddsTyped, b);
    var i :| 0 <= i < |f| && f[i] == b;
    assert OddsAmounts(bets)[i] == ExtractOddsAmount(f[i].kind);
  }

  /** A type the come-odds pattern matches is typed `come_odds_...`. */
  lemma ParsedComeOddsTyped(t: string)
    requires ParseComeOdds(t).Some?
    ensures StartsWith(t, "come_odds_")
  {
    assert t[..|ComeOddsPrefix|] == ComeOddsPrefix;
    assert t[..10] == ComeOddsPrefix[..10];
  }

  /** The come-odds label for `a` on `pt` is typed `come_odds_...` and filed
      under `str(pt)`. */
  lemma ComeOddsLabelKey(a: nat, pt: int)
    requires pt in {4, 5, 6, 8, 9, 10}
    ensures StartsWith(ComeOddsLabel(a, IntToString(pt)), "come_odds_")
    ensures ComeOddsKey(ComeOddsLabel(a, IntToString(pt))) == StrKey(IntToString(pt))
  {
    var t := ComeOddsLabel(a, IntToString(pt));
    ParseComeOddsOfLabel(a, pt, []);
    assert t + [] == t;
    ParsedComeOddsTyped(t);
  }

  /** A bet filed under `k` puts its amount among the levels under `k`. */
  lemma FiledAmount(bets: seq<Bet>, k: PyKey, b: Bet)
    requires b in bets && FiledUnder(k)(b)
    ensures k in ClassicalComeLevels(bets) && b.amount in ClassicalComeLevels(bets)[k]
  {
    FilterMembers(bets, FiledUnder(k), b);
    ClassicalComeLevelsSpec(bets, k);
    var f := Filter(bets, FiledUnder(k));
    var j :| 0 <= j < |f| && f[j] == b;
    assert Amounts(f)[j] == b.amount;
  }

  /** A pass-line odds bet the agent placed from a label is one of the
      levels, so its amount is not offered again at the same point. */
  lemma UsedPassOddsNotReoffered(bets: seq<Bet>, comePoints: set<int>, currentPoint: Option<int>, tableMin: real, a: nat)
    requires ClassicalGameState(bets, comePoints, currentPoint, tableMin).Ok? && currentPoint.Some?
    requires exists b :: b in bets && b.kind == PassLineOddsLabel(a)
    ensures PassLineOddsLabel(a) !in AtomicActionsOf(ClassicalGameState(bets, comePoints, currentPoint, tableMin).value)
  {
    var gs := ClassicalGameState(bets, comePoints, currentPoint, tableMin).value;
    ClassicalGameStateFields(bets, comePoints, currentPoint, tableMin);
    PassOddsBetAmount(bets, a);
    PassLineOddsOffered(gs, a);
  }

  /** A come-odds bet of `a` dollars placed from the label for `a` on `pt` is
      filed under the string of its point, which is where the generator looks,
      so that amount is not offered again on that point. */
  lemma UsedComeOddsNotReoffered(bets: seq<Bet>, comePoints: set<int>, currentPoint: Option<int>, tableMin: real, a: nat, pt: int)
    requires ClassicalGameState(bets, comePoints, currentPoint, tableMin).Ok? && currentPoint.Some?
    requires pt in {4, 5, 6, 8, 9, 10}
    requires exists b :: b in bets && b.kind == ComeOddsLabel(a, IntToString(pt)) && b.amount == a as real
    ensures ComeOddsLabel(a, IntToString(pt)) !in AtomicActionsOf(ClassicalGameState(bets, comePoints, currentPoint, tableMin).value)
  {
    var gs := ClassicalGameState(bets, comePoints, currentPoint, tableMin).value;
    var b :| b in bets && b.kind == ComeOddsLabel(a, IntToString(pt)) && b.amount == a as real;
    ClassicalGameStateFields(bets, comePoints, currentPoint, tableMin);
    ComeOddsLabelKey(a, pt);
    FiledAmount(bets, StrKey(IntToString(pt)), b);
    ComeOddsOffered(gs, pt, a);
  }

  /** The loop of `update_action_space` that fills `come_odds_levels`. */
  method CollectComeLevels(bets: seq<Bet>) returns (levels: map<PyKey, seq<real>>)
    ensures levels == ClassicalComeLevels(bets)
  {
    levels := map[];
    var i := 0;
    while i < |bets|
      invariant 0 <= i <= |bets|
      invariant levels == ClassicalComeLevels(bets[..i])
    {
      assert bets[..i + 1][..i] == bets[..i];
      var b := bets[i];
      if StartsWith(b.kind, "come_odds_") {
        var key := ComeOddsKey(b.kind);
        if key !in levels {
          levels := levels[key := []];
        }
        levels := levels[key := levels[key] + [b.amount]];
      }
      i := i + 1;
    }
    assert bets[..i] == bets;
  }
}
