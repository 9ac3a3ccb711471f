/** `parse_atomic`: the bet kind (and, for a come-odds bet, the point) named
    by an atomic bet label. */
module AgentUtils {
  import opened Wrappers
  import opened Text
  import opened Labels

  /** The four bet kinds `parse_atomic` can name. */
  predicate IsBetKind(s: string)
  {
    s == "pass_line_odds" || s == "come_odds" || s == "pass_line_flat" || s == "come_flat"
  }

  /** The decision on the `_`-separated fields of the lower-cased label, in
      the source's order: pl/odds, come/odds, pass/line, come/flat. Reading a
      second field that is not there is an IndexError, and a last field that
      is not an integer a ValueError. */
  function ParseFields(parts: seq<string>, betStr: string): Result<(string, Option<int>)>
    requires |parts| >= 1
  {
    if parts[0] == "pl" && |parts| < 2 then Err(IndexError)
    else if parts[0] == "pl" && parts[1] == "odds" then Ok(("pass_line_odds", None))
    else if parts[0] == "come" && |parts| < 2 then Err(IndexError)
    else if parts[0] == "come" && parts[1] == "odds" then
      match ParseInt(parts[|parts| - 1])
      case Some(n) => Ok(("come_odds", Some(n)))
      case None => Err(ValueError("invalid literal for int(): " + parts[|parts| - 1]))
    else if parts[0] == "pass" && |parts| < 2 then Err(IndexError)
    else if parts[0] == "pass" && parts[1] == "line" then Ok(("pass_line_flat", None))
    else if parts[0] == "come" && parts[1] == "flat" then Ok(("come_flat", None))
    else Err(ValueError("Unknown bet_str: " + betStr))
  }

  /** `parse_atomic(bet_str)`. */
  function ParseAtomic(betStr: string): (r: Result<(string, Option<int>)>)
  {
    ParseFields(Split(Lower(betStr), '_'), betStr)
  }

  /** The outcome as a function of the fields: which kind, which point, which
      exception. Only a come-odds label carries a point, the integer in its
      last field; every success is one of the four kinds. */
  lemma ParseFieldsSpec(parts: seq<string>, betStr: string)
    requires |parts| >= 1
    ensures var r := ParseFields(parts, betStr);
      && (r.Ok? ==> IsBetKind(r.value.0))
      && (r.Ok? && r.value.0 != "come_odds" ==> r.value.1 == None)
      && (r == Err(IndexError) <==> |parts| == 1 && (parts[0] == "pl" || parts[0] == "come" || parts[0] == "pass"))
      && (r.Ok? && r.value.0 == "pass_line_odds" <==> |parts| >= 2 && parts[0] == "pl" && parts[1] == "odds")
      && (r.Ok? && r.value.0 == "come_odds" <==>
            |parts| >= 2 && parts[0] == "come" && parts[1] == "odds" && ParseInt(parts[|parts| - 1]).Some?)
      && (r.Ok? && r.value.0 == "come_odds" ==> r.value.1 == ParseInt(parts[|parts| - 1]))
      && (r.Ok? && r.value.0 == "pass_line_flat" <==>
            |parts| >= 2 && parts[0] == "pass" && parts[1] == "line" && !(parts[0] == "pl" || parts[0] == "come"))
      && (r.Ok? && r.value.0 == "come_flat" <==> |parts| >= 2 && parts[0] == "come" && parts[1] == "flat")
      && (r.Err? && r.error != IndexError ==> r.error.ValueError?)
  {
  }

  /** The message of the unknown-label error is the only place the label
      itself, rather than its lower-cased fields, appears. */
  lemma ParseFieldsMessageOnly(parts: seq<string>, s: string, t: string)
    requires |parts| >= 1
    ensures ParseFields(parts, s).Ok? <==> ParseFields(parts, t).Ok?
    ensures ParseFields(parts, s).Ok? ==> ParseFields(parts, s) == ParseFields(parts, t)
    ensures ParseFields(parts, s).Err? ==> ParseFields(parts, s).error.ValueError? == ParseFields(parts, t).error.ValueError?
  {
  }

  /** Parsing ignores case: the lower-cased label gives the same bet, and a
      label that fails fails with the same kind of exception (the message
      of an unknown label quotes the label as given). */
  lemma ParseAtomicCaseInsensitive(betStr: string)
    ensures ParseAtomic(Lower(betStr)).Ok? <==> ParseAtomic(betStr).Ok?
    ensures ParseAtomic(betStr).Ok? ==> ParseAtomic(Lower(betStr)) == ParseAtomic(betStr)
    ensures ParseAtomic(betStr).Err? ==>
      ParseAtomic(Lower(betStr)).error.ValueError? == ParseAtomic(betStr).error.ValueError?
  {
    LowerIdempotent(betStr);
    ParseFieldsMessageOnly(Split(Lower(betStr), '_'), betStr, Lower(betStr));
  }

  /** A label without upper-case letters is split as it stands. */
  lemma ParseLowerCase(s: string, parts: seq<string>)
    requires NoUpperCase(s) && Split(s, '_') == parts
    ensures ParseAtomic(s) == ParseFields(parts, s)
  {
    LowerOfLowerCase(s);
  }

  /** The generator's pass-line odds label has first fields `pass` and
      `line`, so it parses as a pass-line flat bet. */
  lemma PassLineOddsParsesAsFlat(amount: int)
    ensures ParseAtomic(PassLineOddsLabel(amount)) == Ok(("pass_line_flat", None))
  {
    LabelsLowerCase(amount, 0);
    PassLineOddsLabelParts(amount);
    ParseLowerCase(PassLineOddsLabel(amount), ["pass", "line", "odds", "$" + IntToString(amount)]);
  }

  /** A come-odds label gives back the point it was built from. */
  lemma ComeOddsParsesToPoint(amount: int, point: int)
    ensures ParseAtomic(ComeOddsLabel(amount, IntToString(point))) == Ok(("come_odds", Some(point)))
  {
    var p := IntToString(point);
    IntToStringShape(point);
    LabelsLowerCase(amount, point);
    ComeOddsLabelParts(amount, p);
    ParseLowerCase(ComeOddsLabel(amount, p), ["come", "odds", "$" + IntToString(amount), p]);
    IntToStringRoundTrip(point);
  }

  lemma ParseAtomicBy(s: string, parts: seq<string>)
    requires Split(Lower(s), '_') == parts
    ensures |parts| >= 1 && ParseAtomic(s) == ParseFields(parts, s)
  {
  }

  lemma FlatLabelsSplit()
    ensures Split(Lower(ComeFlat), '_') == ["come", "flat"]
    ensures Split(Lower(PassLineFlat), '_') == ["pass", "line", "flat"]
  {
    LowerOfLowerCase(ComeFlat);
    LowerOfLowerCase(PassLineFlat);
    ComeFlatParts();
    PassLineFlatParts();
  }

  lemma FlatFieldsParse()
    ensures ParseFields(["come", "flat"], ComeFlat) == Ok((ComeFlat, None))
    ensures ParseFields(["pass", "line", "flat"], PassLineFlat) == Ok((PassLineFlat, None))
  {
  }

  /** The flat labels parse as their own kind. */
  lemma FlatLabelsParse()
    ensures ParseAtomic(ComeFlat) == Ok((ComeFlat, None))
    ensures ParseAtomic(PassLineFlat) == Ok((PassLineFlat, None))
  {
    FlatLabelsSplit();
    FlatFieldsParse();
    ParseAtomicBy(ComeFlat, ["come", "flat"]);
    ParseAtomicBy(PassLineFlat, ["pass", "line", "flat"]);
  }
}
