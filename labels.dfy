/** The bet labels shared by the atomic-action generator, the payout table and
    the agents, e.g. `pass_line_odds_$2`, `come_flat`, `come_odds_$5_6`. */
module Labels {
  import opened Text

  const PassLineFlat: string := "pass_line_flat"
  const ComeFlat: string := "come_flat"

  /** `f'pass_line_odds_${amount}'` */
  function PassLineOddsLabel(amount: int): string
  {
    "pass_line_odds_$" + IntToString(amount)
  }

  /** `f'come_odds_${amount}_{point}'`, the point already a string. */
  function ComeOddsLabel(amount: int, point: string): string
  {
    "come_odds_$" + IntToString(amount) + "_" + point
  }

  lemma PassLineOddsLabelParts(amount: int)
    ensures Split(PassLineOddsLabel(amount), '_') == ["pass", "line", "odds", "$" + IntToString(amount)]
  {
    IntToStringShape(amount);
    var x := "$" + IntToString(amount);
    var parts := ["pass", "line", "odds", x];
    assert parts[1..] == ["line", "odds", x] && parts[2..] == ["odds", x] && parts[3..] == [x];
    assert Join(parts[2..], '_') == "odds" + "_" + x;
    assert Join(parts[1..], '_') == "line" + "_" + "odds" + "_" + x;
    assert Join(parts, '_') == PassLineOddsLabel(amount);
    SplitJoin(parts, '_');
  }

  lemma ComeOddsLabelParts(amount: int, point: string)
    requires '_' !in point
    ensures Split(ComeOddsLabel(amount, point), '_') == ["come", "odds", "$" + IntToString(amount), point]
  {
    IntToStringShape(amount);
    var x := "$" + IntToString(amount);
    var parts := ["come", "odds", x, point];
    assert parts[1..] == ["odds", x, point] && parts[2..] == [x, point] && parts[3..] == [point];
    assert Join(parts[2..], '_') == x + "_" + point;
    assert Join(parts[1..], '_') == "odds" + "_" + x + "_" + point;
    assert Join(parts, '_') == ComeOddsLabel(amount, point);
    SplitJoin(parts, '_');
  }

  lemma ComeFlatParts()
    ensures Split(ComeFlat, '_') == ["come", "flat"]
  {
    var parts := ["come", "flat"];
    assert parts[1..] == ["flat"];
    assert Join(parts, '_') == ComeFlat;
    SplitJoin(parts, '_');
  }

  lemma PassLineFlatParts()
    ensures Split(PassLineFlat, '_') == ["pass", "line", "flat"]
  {
    var parts := ["pass", "line", "flat"];
    assert parts[1..] == ["line", "flat"] && parts[2..] == ["flat"];
    assert Join(parts[1..], '_') == "line" + "_" + "flat";
    assert Join(parts, '_') == PassLineFlat;
    SplitJoin(parts, '_');
  }

  /** The labels hold no upper-case letter, so `lower()` leaves them unchanged. */
  lemma LabelsLowerCase(amount: int, point: int)
    ensures NoUpperCase(PassLineOddsLabel(amount)) && NoUpperCase(ComeOddsLabel(amount, IntToString(point)))
    ensures NoUpperCase(PassLineFlat) && NoUpperCase(ComeFlat)
  {
    IntToStringLowerCase(amount);
    IntToStringLowerCase(point);
    var a, p := IntToString(amount), IntToString(point);
    var pass, come := "pass_line_odds_$", "come_odds_$";
    assert forall k | 0 <= k < |pass + a| :: k < |pass| ==> (pass + a)[k] == pass[k];
    assert forall k | 0 <= k < |pass + a| :: k >= |pass| ==> (pass + a)[k] == a[k - |pass|];
    var c := come + a + "_" + p;
    assert forall k | 0 <= k < |c| :: k < |come| ==> c[k] == come[k];
    assert forall k | 0 <= k < |c| :: |come| <= k < |come + a| ==> c[k] == a[k - |come|];
    assert forall k | 0 <= k < |c| :: k == |come + a| ==> c[k] == '_';
    assert forall k | 0 <= k < |c| :: k > |come + a| ==> c[k] == p[k - |come + a| - 1];
  }

  /** Different amounts give different pass-line odds labels. */
  lemma PassLineOddsLabelInjective(a: int, b: int)
    requires PassLineOddsLabel(a) == PassLineOddsLabel(b)
    ensures a == b
  {
    PassLineOddsLabelParts(a);
    PassLineOddsLabelParts(b);
    assert ("$" + IntToString(a))[1..] == IntToString(a);
    assert ("$" + IntToString(b))[1..] == IntToString(b);
    IntToStringInjective(a, b);
  }

  /** A come-odds label determines its amount and its point string. */
  lemma ComeOddsLabelInjective(a: int, p: string, b: int, q: string)
    requires '_' !in p && '_' !in q
    requires ComeOddsLabel(a, p) == ComeOddsLabel(b, q)
    ensures a == b && p == q
  {
    ComeOddsLabelParts(a, p);
    ComeOddsLabelParts(b, q);
    assert ("$" + IntToString(a))[1..] == IntToString(a);
    assert ("$" + IntToString(b))[1..] == IntToString(b);
    IntToStringInjective(a, b);
  }

  /** The four kinds of label never coincide. */
  lemma LabelKindsDiffer(a: int, b: int, p: string)
    requires '_' !in p
    ensures PassLineOddsLabel(a) != ComeOddsLabel(b, p)
    ensures PassLineOddsLabel(a) != ComeFlat && PassLineOddsLabel(a) != PassLineFlat
    ensures ComeOddsLabel(b, p) != ComeFlat && ComeOddsLabel(b, p) != PassLineFlat
    ensures ComeFlat != PassLineFlat
  {
    PassLineOddsLabelParts(a);
    ComeOddsLabelParts(b, p);
    ComeFlatParts();
    PassLineFlatParts();
  }
}
