/**
 * What the single-plot scripts derive from one request (verification
 * metric, forecast field, level or accumulation, threshold, models) before
 * they fill the METviewer xml template: the parsed threshold with its
 * operator escaped for XML, the parsed and zero-padded level, the series
 * and line-type lists, the titles and file names, and the names METviewer
 * knows the field, the metric, the observation type and the template by.
 * Both single-plot scripts share these rules; the modules SinglePlot and
 * OlderPlot put them together in their own order.
 */
module PlotParams {
  import opened Wrappers
  import opened PyStr
  import opened PySeq
  import opened PlotRegex

  /** The points at which plot generation stops, one per raise. */
  datatype Failure =
    | HostNotConfigured(host: string)
    | DatabaseNotConfigured(name: string)
    | LevelNotInMaster(field: string, level: string)
    | InvalidThreshFormat(thresh: string)
    | InvalidCompOper(oper: string)
    | DuplicateModels(duplicates: set<string>)
    | UnknownModel(short: string)
    | ThreshNotInDb(thresh: string)
    | ColorIndexOutOfRange
    | NonPositiveEnsMems(model: string, numEnsMems: int)
    | TooManyModels(numModels: nat, numColors: nat)
    | LevelNotValidForField(field: string, level: string)
    | UndefinedName(name: string)
    | ThreshUnitsNotValid(field: string, units: string)
    | NotInList(value: string)
    | IndexOutOfRange(name: string)

  // ---------------------------------------------------------- threshold

  /** The dictionary get_thresh_info returns. */
  datatype ThreshInfo = ThreshInfo(inConfig: string, compOper: string, value: string,
                                   units: string, inDb: string, inPlotTitle: string)

  const NoThresh := ThreshInfo("", "", "", "", "", "")

  /** The four comparison operators and how the database writes them. */
  function CompOperXml(op: string): (r: Option<string>)
    ensures r.Some? <==> op == "lt" || op == "le" || op == "gt" || op == "ge"
  {
    if op == "lt" then Some("&lt;")
    else if op == "le" then Some("&lt;=")
    else if op == "gt" then Some("&gt;")
    else if op == "ge" then Some("&gt;=")
    else None
  }

  /** The comparison each operator name stands for. */
  function Symbol(op: string): string
  {
    if op == "lt" then "<" else if op == "le" then "<=" else if op == "gt" then ">" else ">="
  }

  /** Character data with '<' and '>' written as the predefined entities
      &lt; and &gt; (section 4.6 of XML 1.0). */
  function XmlEscape(s: string): string
  {
    if |s| == 0 then ""
    else (if s[0] == '<' then "&lt;" else if s[0] == '>' then "&gt;" else [s[0]]) + XmlEscape(s[1..])
  }

  /** The database spelling of an operator is its comparison symbol with the
      XML entities in place of '<' and '>'. */
  lemma CompOperIsEscapedSymbol(op: string)
    requires CompOperXml(op).Some?
    ensures CompOperXml(op).value == XmlEscape(Symbol(op))
  {
    assert XmlEscape("=") == "=" by { assert XmlEscape("=") == "=" + XmlEscape(""); }
    assert XmlEscape("<=") == "&lt;" + XmlEscape("=");
    assert XmlEscape(">=") == "&gt;" + XmlEscape("=");
    assert XmlEscape("<") == "&lt;" + XmlEscape("");
    assert XmlEscape(">") == "&gt;" + XmlEscape("");
  }

  /** Units as they read in the plot title, as the code is written: the
      "mps" rewrite is computed and then overwritten, so only "Jpkg"
      becomes "J/kg". */
  function UnitsInTitleAsWritten(units: string): string
  {
    ReplaceAll(units, "Jpkg", "J/kg")
  }

  /** Units as they read in the plot title, with both rewrites of "p" for
      "per": "mps" to "m/s" and "Jpkg" to "J/kg". */
  function UnitsInTitle(units: string): string
  {
    ReplaceAll(ReplaceAll(units, "mps", "m/s"), "Jpkg", "J/kg")
  }

  /** get_thresh_info, with the title spelling of the units as a parameter:
      the empty threshold is no threshold, anything else must match the
      threshold pattern and carry one of the four operators. */
  function ThreshInfoFrom(thresh: string, titleUnits: string -> string): (r: Result<ThreshInfo, Failure>)
    ensures thresh == "" ==> r == Ok(NoThresh)
    ensures r.Err? ==> thresh != ""
    ensures r.Ok? && thresh != "" ==>
              r.value.inConfig == thresh && |r.value.value| > 0 &&
              CompOperXml(r.value.compOper).Some? &&
              r.value.inDb == CompOperXml(r.value.compOper).value + r.value.value
  {
    match FindThresh(thresh, false)
    case None =>
      if thresh == "" then Ok(NoThresh) else Err(InvalidThreshFormat(thresh))
    case Some(p) =>
      match CompOperXml(p.oper)
      case None => Err(InvalidCompOper(p.oper))
      case Some(x) =>
        Ok(ThreshInfo(thresh, p.oper, p.value, p.units, x + p.value,
                      JoinNonEmpty([x, p.value, titleUnits(p.units)], " ")))
  }

  /** get_thresh_info as the code is written. */
  function GetThreshInfoAsWritten(thresh: string): Result<ThreshInfo, Failure>
  {
    ThreshInfoFrom(thresh, UnitsInTitleAsWritten)
  }

  /** get_thresh_info with both unit rewrites in effect. */
  function GetThreshInfo(thresh: string): Result<ThreshInfo, Failure>
  {
    ThreshInfoFrom(thresh, UnitsInTitle)
  }

  /** A threshold written as operator letters, a number and unit letters
      parses into those pieces, whatever the title spelling of the units. */
  lemma ThreshInfoOfParts(op: string, a: string, b: string, c: string, units: string,
                          titleUnits: string -> string)
    requires |op| > 0 && AllLetters(op)
    requires AllDigits(a) && AllDots(b) && AllDigits(c) && |c| > 0
    requires AllLetters(units)
    ensures var t := op + a + b + c + units;
            ThreshInfoFrom(t, titleUnits) ==
              if CompOperXml(op).Some? then
                Ok(ThreshInfo(t, op, a + b + c, units, CompOperXml(op).value + (a + b + c),
                              JoinNonEmpty([CompOperXml(op).value, a + b + c, titleUnits(units)], " ")))
              else Err(InvalidCompOper(op))
  {
    ThreshRoundTrip(op, a, b, c, units, false);
    ThreshInfoOfMatch(op + a + b + c + units, ThreshParts(op, a + b + c, units), titleUnits);
  }

  /** What get_thresh_info makes of the first match of the pattern. */
  lemma ThreshInfoOfMatch(t: string, p: ThreshParts, titleUnits: string -> string)
    requires FindThresh(t, false) == Some(p)
    ensures ThreshInfoFrom(t, titleUnits) ==
              if CompOperXml(p.oper).Some? then
                Ok(ThreshInfo(t, p.oper, p.value, p.units, CompOperXml(p.oper).value + p.value,
                              JoinNonEmpty([CompOperXml(p.oper).value, p.value, titleUnits(p.units)], " ")))
              else Err(InvalidCompOper(p.oper))
  {
  }

  /** The same for get_thresh_info: a threshold is accepted exactly when
      its operator is one of the four, and then its database form is the
      escaped operator followed by the number. */
  lemma ThreshInfoRoundTrip(op: string, a: string, b: string, c: string, units: string)
    requires |op| > 0 && AllLetters(op)
    requires AllDigits(a) && AllDots(b) && AllDigits(c) && |c| > 0
    requires AllLetters(units)
    ensures var t := op + a + b + c + units;
            GetThreshInfo(t) ==
              if CompOperXml(op).Some? then
                Ok(ThreshInfo(t, op, a + b + c, units, CompOperXml(op).value + (a + b + c),
                              JoinNonEmpty([CompOperXml(op).value, a + b + c, UnitsInTitle(units)], " ")))
              else Err(InvalidCompOper(op))
  {
    ThreshInfoOfParts(op, a, b, c, units, UnitsInTitle);
  }

  /** A non-empty threshold without a digit does not have the threshold
      format. */
  lemma NoDigitThreshRejected(t: string)
    requires t != "" && forall k :: 0 <= k < |t| ==> !IsDigit(t[k])
    ensures GetThreshInfo(t) == Err(InvalidThreshFormat(t))
  {
    NoDigitNoThresh(t, 0, false);
  }

  /** A wind-speed threshold whose units the titles rewrite. */
  const GeFiveMps: string := "ge5mps"

  /** "ge5mps" reads as the operator "ge", the value 5 and the units "mps". */
  lemma GeFiveMpsMatch()
    ensures FindThresh(GeFiveMps, false) == Some(ThreshParts("ge", "5", "mps"))
  {
    assert AllLetters("ge") && AllDigits("5") && AllLetters("mps");
    assert "ge" + "5" + "mps" == GeFiveMps;
    DigitsThreshRoundTrip("ge", "5", "mps", false);
  }

  /** "ge5mps" as the code is written: the title keeps "mps". */
  lemma MpsKeptAsWritten()
    ensures GetThreshInfoAsWritten(GeFiveMps) ==
            Ok(ThreshInfo(GeFiveMps, "ge", "5", "mps", "&gt;=5", "&gt;= 5 mps"))
  {
    assert JoinNonEmpty(["&gt;=", "5", UnitsInTitleAsWritten("mps")], " ") == "&gt;= 5 mps" by {
      assert UnitsInTitleAsWritten("mps") == "mps";
      JoinOfThree("&gt;=", "5", "mps", " ");
      assert "&gt;=" + " " == "&gt;= ";
      assert "&gt;= " + "5" == "&gt;= 5";
      assert "&gt;= 5" + " " == "&gt;= 5 ";
      assert "&gt;= 5 " + "mps" == "&gt;= 5 mps";
    }
    GeFiveMpsInfo(UnitsInTitleAsWritten);
  }

  /** "ge5mps" with both rewrites: the title reads "m/s". */
  lemma MpsRewritten()
    ensures GetThreshInfo(GeFiveMps) ==
            Ok(ThreshInfo(GeFiveMps, "ge", "5", "mps", "&gt;=5", "&gt;= 5 m/s"))
  {
    assert JoinNonEmpty(["&gt;=", "5", UnitsInTitle("mps")], " ") == "&gt;= 5 m/s" by {
      UnitsPerSlash();
      JoinOfThree("&gt;=", "5", "m/s", " ");
      assert "&gt;=" + " " == "&gt;= ";
      assert "&gt;= " + "5" == "&gt;= 5";
      assert "&gt;= 5" + " " == "&gt;= 5 ";
      assert "&gt;= 5 " + "m/s" == "&gt;= 5 m/s";
    }
    GeFiveMpsInfo(UnitsInTitle);
  }

  /** What get_thresh_info makes of "ge5mps", up to the title spelling of
      its units. */
  lemma GeFiveMpsInfo(titleUnits: string -> string)
    ensures ThreshInfoFrom(GeFiveMps, titleUnits) ==
            Ok(ThreshInfo(GeFiveMps, "ge", "5", "mps", "&gt;=5",
                          JoinNonEmpty(["&gt;=", "5", titleUnits("mps")], " ")))
  {
    GeFiveMpsMatch();
    ThreshInfoOfMatch(GeFiveMps, ThreshParts("ge", "5", "mps"), titleUnits);
    assert "&gt;=" + "5" == "&gt;=5";
  }

  /** Three non-empty parts joined with sep. */
  lemma JoinOfThree(x: string, y: string, z: string, sep: string)
    requires x != "" && y != "" && z != ""
    ensures JoinNonEmpty([x, y, z], sep) == x + sep + y + sep + z
  {
    NonEmptyKeepsAll([x, y, z]);
    assert [x, y, z] == [x] + [y, z] && [y, z] == [y] + [z];
    JoinCons(x, [y, z], sep);
    JoinCons(y, [z], sep);
  }

  /** Both "per" units are spelled with a slash. */
  lemma UnitsPerSlash()
    ensures UnitsInTitle("mps") == "m/s" && UnitsInTitle("Jpkg") == "J/kg"
  {
    assert ReplaceAll("mps", "mps", "m/s") == "m/s" + ReplaceAll("", "mps", "m/s");
    assert ReplaceAll("Jpkg", "mps", "m/s") == "J" + ReplaceAll("pkg", "mps", "m/s");
    assert ReplaceAll("Jpkg", "Jpkg", "J/kg") == "J/kg" + ReplaceAll("", "Jpkg", "J/kg");
  }

  /** Units with neither "mps" nor "Jpkg" in them are left alone. */
  lemma OtherUnitsUnchanged(u: string)
    requires !Contains(u, "mps") && !Contains(u, "Jpkg")
    ensures UnitsInTitle(u) == u
  {
    ReplaceAbsent(u, "mps", "m/s");
    ReplaceAbsent(u, "Jpkg", "J/kg");
  }

  // -------------------------------------------------------------- level

  /** The level or accumulation after parsing: the number and units the
      level pattern finds, the number without leading zeros, and that number
      zero-padded to the width its units call for. */
  datatype LevelInfo = LevelInfo(value: string, units: string, no0pad: string, zeroPadded: string)

  /** The two groups of the first level match, or two empty strings. */
  function LevelGroups(loa: string): (r: (string, string))
    ensures forall k :: 0 <= k < |r.0| ==> IsDigit(r.0[k]) || r.0[k] == '.'
  {
    match FindLevel(loa)
    case None => ("", "")
    case Some(p) => (p.value, p.units)
  }

  /** Digits followed by unit letters are the two groups. */
  lemma LevelGroupsOfToken(a: string, units: string)
    requires AllDigits(a) && |a| > 0
    requires |units| > 0 && AllLetters(units)
    ensures LevelGroups(a + units) == (a, units)
  {
    DigitsLevelRoundTrip(a, units);
  }

  predicate IsLevelUnits(u: string) { u == "" || u == "h" || u == "m" || u == "mb" }

  /** Hours and metres are padded to two digits, millibars to three. */
  function PadWidth(units: string): nat
  {
    if units == "h" || units == "m" then 2 else if units == "mb" then 3 else 0
  }

  /** The level handling of generate_metviewer_xml.  Units outside the four
      known ones reach an error message that reads loa_value_no0pad before
      it is assigned, so that path ends in a NameError. */
  function ParseLevel(field: string, loa: string, validForField: seq<string>): (r: Result<LevelInfo, Failure>)
    ensures loa !in validForField ==> r == Err(LevelNotValidForField(field, loa))
    ensures r.Err? <==> loa !in validForField || !IsLevelUnits(LevelGroups(loa).1)
    ensures r.Ok? ==> IsLevelUnits(r.value.units) && r.value.no0pad == LStripChar(r.value.value, '0')
    ensures r.Ok? ==> LStripChar(r.value.zeroPadded, '0') == r.value.no0pad
    ensures r.Ok? ==> |r.value.zeroPadded| == Max(|r.value.no0pad|, PadWidth(r.value.units))
  {
    if loa !in validForField then Err(LevelNotValidForField(field, loa))
    else
      var (v, u) := LevelGroups(loa);
      if !IsLevelUnits(u) then Err(UndefinedName("loa_value_no0pad"))
      else
        var n := LStripChar(v, '0');
        assert n == [] || n[0] == v[|v| - |n|];
        ZFillStripRoundTrip(n, PadWidth(u));
        Ok(LevelInfo(v, u, n, ZFill(n, PadWidth(u))))
  }

  /** A level written as digits and one of the known units keeps its
      digits and units. */
  lemma LevelTokenParsed(field: string, a: string, units: string, validForField: seq<string>)
    requires AllDigits(a) && |a| > 0
    requires units == "h" || units == "m" || units == "mb"
    requires a + units in validForField
    ensures var n := LStripChar(a, '0');
            ParseLevel(field, a + units, validForField) ==
              Ok(LevelInfo(a, units, n, ZFill(n, PadWidth(units))))
  {
    assert LevelGroups(a + units) == (a, units) by {
      assert AllLetters(units);
      LevelGroupsOfToken(a, units);
    }
    ParseLevelOfGroups(field, a + units, validForField, a, units);
  }

  /** ParseLevel on a valid level whose groups are known. */
  lemma ParseLevelOfGroups(field: string, loa: string, validForField: seq<string>, v: string, u: string)
    requires loa in validForField && LevelGroups(loa) == (v, u) && IsLevelUnits(u)
    ensures var n := LStripChar(v, '0');
            ParseLevel(field, loa, validForField) == Ok(LevelInfo(v, u, n, ZFill(n, PadWidth(u))))
  {
  }

  /** Digits followed by letters that are not a known unit end in the
      NameError. */
  lemma UnknownLevelUnits(field: string, a: string, units: string, validForField: seq<string>)
    requires AllDigits(a) && |a| > 0
    requires |units| > 0 && AllLetters(units) && !IsLevelUnits(units)
    requires a + units in validForField
    ensures ParseLevel(field, a + units, validForField) == Err(UndefinedName("loa_value_no0pad"))
  {
    LevelGroupsOfToken(a, units);
  }

  /** The surface level "L0" has no number and no units. */
  lemma SurfaceLevelParsed(field: string, validForField: seq<string>)
    requires "L0" in validForField
    ensures ParseLevel(field, "L0", validForField) == Ok(LevelInfo("", "", "", ""))
  {
    SurfaceLevelNoMatch();
  }

  // ------------------------------------------- levels against the master

  /** One forecast field of the static configuration. */
  datatype FieldInfo = FieldInfo(name: string, longName: string,
                                 validUnits: seq<string>, validLevels: seq<string>)

  /** The first field, in configuration order, with a level missing from the
      master list, and that level. */
  function FirstLevelNotInMaster(fields: seq<FieldInfo>, master: seq<string>): (r: Option<(string, string)>)
    ensures r.None? <==> forall i, l :: 0 <= i < |fields| && l in fields[i].validLevels ==> l in master
    ensures r.Some? ==> exists i :: 0 <= i < |fields| && fields[i].name == r.value.0 &&
                                   r.value.1 in fields[i].validLevels && r.value.1 !in master
  {
    if |fields| == 0 then None
    else
      match FirstNotIn(fields[0].validLevels, master)
      case Some(l) => Some((fields[0].name, l))
      case None =>
        var rest := FirstLevelNotInMaster(fields[1..], master);
        assert forall i :: 1 <= i < |fields| ==> fields[i] == fields[1..][i - 1];
        rest
  }

  /** The load-time loop over fields and their levels: the first level
      missing from the master list stops the script. */
  method CheckFieldLevels(fields: seq<FieldInfo>, master: seq<string>) returns (err: Option<Failure>)
    ensures err.None? <==> forall i, l :: 0 <= i < |fields| && l in fields[i].validLevels ==> l in master
    ensures err == match FirstLevelNotInMaster(fields, master)
                   case None => None
                   case Some(p) => Some(LevelNotInMaster(p.0, p.1))
  {
    var i := 0;
    while i < |fields|
      invariant 0 <= i <= |fields|
      invariant FirstLevelNotInMaster(fields, master) == FirstLevelNotInMaster(fields[i..], master)
    {
      var levels := fields[i].validLevels;
      var j := 0;
      while j < |levels|
        invariant 0 <= j <= |levels|
        invariant FirstNotIn(levels, master) == FirstNotIn(levels[j..], master)
      {
        if levels[j] !in master {
          return Some(LevelNotInMaster(fields[i].name, levels[j]));
        }
        assert levels[j..][1..] == levels[j + 1..];
        j := j + 1;
      }
      assert fields[i..][1..] == fields[i + 1..];
      i := i + 1;
    }
    return None;
  }

  // ------------------------------------------------ metric and threshold

  /** incl_ens_means: the command-line value when given, otherwise on for
      the bias metric only. */
  function InclEnsMeans(given: Option<bool>, metric: string): (r: bool)
    ensures given.None? ==> (r <==> metric == "bias")
    ensures given.Some? ==> r == given.value
  {
    match given
    case Some(b) => b
    case None => metric == "bias"
  }

  /** The threshold actually used: a metric that needs none gets none. */
  function EffectiveThreshold(needsThresh: bool, thresh: string): (r: string)
    ensures needsThresh ==> r == thresh
    ensures !needsThresh ==> r == ""
  {
    if !needsThresh && thresh != "" then "" else thresh
  }

  // ------------------------------------------------ titles and file names

  /** The plot title: metric long name, "for", the level, the field long
      name and the threshold, empty parts dropped. */
  function PlotTitle(metricLong: string, lvl: LevelInfo, fieldLong: string, t: ThreshInfo): string
  {
    JoinNonEmpty([metricLong, "for", lvl.value + lvl.units, fieldLong, t.inPlotTitle], " ")
  }

  function VarLvlStr(field: string, lvl: LevelInfo): string
  {
    JoinNonEmpty([Upper(field), lvl.value, lvl.units], "")
  }

  function ThreshStr(t: ThreshInfo): string
  {
    JoinNonEmpty([t.compOper, t.value, t.units], "")
  }

  function VarLvlThreshStr(field: string, lvl: LevelInfo, t: ThreshInfo): string
  {
    JoinNonEmpty([VarLvlStr(field, lvl), ThreshStr(t)], "_")
  }

  /** The upper-cased field, the level and, only when there is one, an
      underscore and the threshold. */
  lemma VarLvlThreshShape(field: string, lvl: LevelInfo, t: ThreshInfo)
    requires field != ""
    ensures VarLvlStr(field, lvl) == Upper(field) + lvl.value + lvl.units
    ensures ThreshStr(t) == t.compOper + t.value + t.units
    ensures VarLvlThreshStr(field, lvl, t) ==
            VarLvlStr(field, lvl) + (if ThreshStr(t) == "" then "" else "_" + ThreshStr(t))
  {
    JoinEmptyFree(Upper(field), lvl.value, lvl.units);
    JoinEmptyFree(t.compOper, t.value, t.units);
    var v, s := VarLvlStr(field, lvl), ThreshStr(t);
    assert v != "";
    assert [v, s] == [v] + [s];
    NonEmptyCons(v, [s]);
    NonEmptyCons(s, []);
    assert [s] + [] == [s];
    if s != "" {
      assert NonEmpty([v, s]) == [v] + [s];
      JoinCons(v, [s], "_");
    }
  }

  /** Joining with the empty separator: the empty parts contribute nothing
      anyway. */
  lemma JoinEmptyFree(x: string, y: string, z: string)
    ensures JoinNonEmpty([x, y, z], "") == x + y + z
  {
    assert [x, y, z] == [x] + [y, z] && [y, z] == [y] + [z] && [z] == [z] + [];
    NonEmptyCons(x, [y, z]);
    NonEmptyCons(y, [z]);
    NonEmptyCons(z, []);
    var ex := if x == "" then [] else [x];
    var ey := if y == "" then [] else [y];
    var ez := if z == "" then [] else [z];
    assert NonEmpty([x, y, z]) == ex + (ey + ez);
    JoinConcat(ex + (ey + ez));
    ConcatAppend(ex, ey + ez);
    ConcatAppend(ey, ez);
  }

  lemma {:induction false} JoinConcat(q: seq<string>)
    ensures Join(q, "") == Concat(q)
  {
    if |q| > 1 {
      JoinConcat(q[1..]);
    }
  }

  lemma {:induction false} ConcatAppend(a: seq<string>, b: seq<string>)
    ensures Concat(a + b) == Concat(a) + Concat(b)
  {
    if |a| > 0 {
      assert (a + b)[0] == a[0];
      assert (a + b)[1..] == a[1..] + b;
      ConcatAppend(a[1..], b);
    } else {
      assert a + b == b;
    }
  }

  /** The parts of q one after another. */
  function Concat(q: seq<string>): string
  {
    if |q| == 0 then "" else q[0] + Concat(q[1..])
  }

  function ModelsStr(shorts: seq<string>): string
  {
    Join(shorts, "_")
  }

  /** The job title: metric, level-and-threshold and models, joined with
      underscores without dropping anything. */
  function JobTitle(metric: string, field: string, lvl: LevelInfo, t: ThreshInfo, shorts: seq<string>): string
  {
    Join([metric, VarLvlThreshStr(field, lvl, t), ModelsStr(shorts)], "_")
  }

  /** The xml file name: "plot", the metric, the field and level, the
      threshold and the models, empty parts dropped, then ".xml". */
  function OutputXmlFn(metric: string, field: string, lvl: LevelInfo, thresh: string,
                       shorts: seq<string>): string
  {
    JoinNonEmpty(["plot", metric, VarLvlStr(field, lvl), thresh, ModelsStr(shorts)], "_") + ".xml"
  }

  /** With a metric, a field and at least one model, the file name is
      plot_<metric>_<field and level>[_<threshold>]_<models>.xml. */
  lemma OutputXmlFnShape(metric: string, field: string, lvl: LevelInfo, thresh: string,
                         shorts: seq<string>)
    requires metric != "" && field != "" && |shorts| > 0 && shorts[0] != ""
    ensures OutputXmlFn(metric, field, lvl, thresh, shorts) ==
            "plot_" + metric + "_" + VarLvlStr(field, lvl) +
            (if thresh == "" then "" else "_" + thresh) + "_" + ModelsStr(shorts) + ".xml"
  {
    var v, m := VarLvlStr(field, lvl), ModelsStr(shorts);
    assert v != "" by {
      JoinEmptyFree(Upper(field), lvl.value, lvl.units);
    }
    assert m != "" by {
      if |shorts| > 1 {
        assert [shorts[0]] + shorts[1..] == shorts;
        JoinCons(shorts[0], shorts[1..], "_");
      }
    }
    var t := if thresh == "" then "" else "_" + thresh;
    assert JoinNonEmpty(["plot", metric, v, thresh, m], "_") == "plot" + "_" + metric + "_" + v + t + "_" + m by {
      JoinSkipping("plot", metric, v, thresh, m, "_");
    }
    assert "plot" + "_" == "plot_";
  }

  /** Five parts of which only the fourth may be empty. */
  lemma JoinSkipping(a: string, b: string, c: string, d: string, e: string, sep: string)
    requires a != "" && b != "" && c != "" && e != ""
    ensures JoinNonEmpty([a, b, c, d, e], sep) ==
            a + sep + b + sep + c + (if d == "" then "" else sep + d) + sep + e
  {
    var pre := a + sep + b + sep + c;
    if d == "" {
      assert JoinNonEmpty([a, b, c, d, e], sep) == Join([a, b, c, e], sep) by {
        NonEmptyFive(a, b, c, d, e);
      }
      assert Join([a, b, c, e], sep) == pre + sep + e by {
        JoinFour(a, b, c, e, sep);
      }
      assert pre + "" == pre;
    } else {
      assert JoinNonEmpty([a, b, c, d, e], sep) == Join([a, b, c, d, e], sep) by {
        NonEmptyFive(a, b, c, d, e);
      }
      assert Join([a, b, c, d, e], sep) == pre + sep + d + sep + e by {
        JoinFive(a, b, c, d, e, sep);
      }
      assert pre + sep + d + sep + e == pre + (sep + d) + sep + e;
    }
  }

  /** filter(None, ...) on five parts of which only the fourth may be empty. */
  lemma NonEmptyFive(a: string, b: string, c: string, d: string, e: string)
    requires a != "" && b != "" && c != "" && e != ""
    ensures NonEmpty([a, b, c, d, e]) == if d == "" then [a, b, c, e] else [a, b, c, d, e]
  {
    assert [a, b, c, d, e] == [a] + ([b] + ([c] + ([d] + [e])));
    NonEmptyCons(a, [b] + ([c] + ([d] + [e])));
    NonEmptyCons(b, [c] + ([d] + [e]));
    NonEmptyCons(c, [d] + [e]);
    NonEmptyCons(d, [e]);
    NonEmptyCons(e, []);
    assert [e] + [] == [e];
  }

  /** Four parts joined. */
  lemma JoinFour(a: string, b: string, c: string, d: string, sep: string)
    ensures Join([a, b, c, d], sep) == a + sep + b + sep + c + sep + d
  {
    assert [a, b, c, d] == [a] + [b, c, d] && [b, c, d] == [b] + [c, d] && [c, d] == [c] + [d];
    JoinCons(a, [b, c, d], sep);
    JoinCons(b, [c, d], sep);
    JoinCons(c, [d], sep);
    var cd := c + sep + d;
    assert a + sep + (b + sep + cd) == a + sep + b + sep + cd;
  }

  /** Five parts joined. */
  lemma JoinFive(a: string, b: string, c: string, d: string, e: string, sep: string)
    ensures Join([a, b, c, d, e], sep) == a + sep + b + sep + c + sep + d + sep + e
  {
    assert [a, b, c, d, e] == [a] + [b, c, d, e];
    JoinCons(a, [b, c, d, e], sep);
    JoinFour(b, c, d, e, sep);
    var ce := c + sep + d + sep + e;
    assert a + sep + (b + sep + ce) == a + sep + b + sep + ce;
  }

  // ------------------------------------------------------------- series

  function Sum(ns: seq<nat>): nat
  {
    if |ns| == 0 then 0 else Sum(ns[..|ns| - 1]) + ns[|ns| - 1]
  }

  /** num_series: one per ensemble member, plus one ensemble mean per model
      when means are included. */
  function NumSeries(numEnsMems: seq<nat>, inclEnsMeans: bool): nat
  {
    Sum(numEnsMems) + (if inclEnsMeans then |numEnsMems| else 0)
  }

  function RepeatStr(x: string, n: nat): (r: seq<string>)
    ensures |r| == n && forall i :: 0 <= i < n ==> r[i] == x
  {
    if n == 0 then [] else RepeatStr(x, n - 1) + [x]
  }

  /** line_types: per model, a "b" for its ensemble mean when means are
      included, then an "l" per member. */
  function LineTypesOf(numEnsMems: seq<nat>, inclEnsMeans: bool): seq<string>
  {
    if |numEnsMems| == 0 then []
    else LineTypesOf(numEnsMems[..|numEnsMems| - 1], inclEnsMeans) +
         (if inclEnsMeans then ["b"] else []) + RepeatStr("l", numEnsMems[|numEnsMems| - 1])
  }

  /** There is a line type for every series. */
  lemma {:induction false} LineTypesCount(numEnsMems: seq<nat>, inclEnsMeans: bool)
    ensures |LineTypesOf(numEnsMems, inclEnsMeans)| == NumSeries(numEnsMems, inclEnsMeans)
  {
    if |numEnsMems| > 0 {
      LineTypesCount(numEnsMems[..|numEnsMems| - 1], inclEnsMeans);
    }
  }

  /** The append/extend loop that builds line_types. */
  method BuildLineTypes(numEnsMems: seq<nat>, inclEnsMeans: bool) returns (lineTypes: seq<string>)
    ensures lineTypes == LineTypesOf(numEnsMems, inclEnsMeans)
    ensures |lineTypes| == NumSeries(numEnsMems, inclEnsMeans)
  {
    lineTypes := [];
    for imod := 0 to |numEnsMems|
      invariant lineTypes == LineTypesOf(numEnsMems[..imod], inclEnsMeans)
    {
      if inclEnsMeans {
        lineTypes := lineTypes + ["b"];
      }
      lineTypes := lineTypes + RepeatStr("l", numEnsMems[imod]);
      assert numEnsMems[..imod + 1][..imod] == numEnsMems[..imod];
    }
    assert numEnsMems[..|numEnsMems|] == numEnsMems;
    LineTypesCount(numEnsMems, inclEnsMeans);
  }

  /** order_series: 1 to num_series. */
  function OrderSeries(numSeries: nat): (r: seq<nat>)
    ensures |r| == numSeries && forall i :: 0 <= i < numSeries ==> r[i] == i + 1
  {
    seq(numSeries, i => i + 1)
  }

  /** line_widths: a width of 1 for every ensemble member. */
  function LineWidths(numEnsMems: seq<nat>): (r: seq<nat>)
    ensures |r| == Sum(numEnsMems) && forall i :: 0 <= i < |r| ==> r[i] == 1
  {
    if |numEnsMems| == 0 then []
    else LineWidths(numEnsMems[..|numEnsMems| - 1]) + seq(numEnsMems[|numEnsMems| - 1], _ => 1)
  }

  // ------------------------------------------------------ x-axis labels

  /** Python's round(n / 16): the nearest integer, halves to the even one. */
  function RoundSixteenth(n: nat): (r: nat)
    ensures 2 * n <= 16 * (2 * r + 1) && 16 * (2 * r - 1) <= 2 * n
    ensures n % 16 == 8 ==> r % 2 == 0
  {
    var q, rem := n / 16, n % 16;
    if rem > 8 then q + 1 else if rem < 8 then q else if q % 2 == 0 then q else q + 1
  }

  /** len(range(0, stop, step)): the multiples of step below stop. */
  function RangeLen(stop: int, step: nat): (r: nat)
    requires step > 0
    ensures r * step >= stop
    ensures r > 0 ==> (r - 1) * step < stop
  {
    if stop <= 0 then 0 else (stop + step - 1) / step
  }

  /** The accumulation of a level such as "06h" is its two leading digits. */
  lemma AccumLevelValue(loa: string, digits: string)
    requires loa == digits + "h" && |digits| > 0 && AllDigits(digits)
    ensures LevelGroups(loa) == (digits, "h")
  {
    LevelGroupsOfToken(digits, "h");
  }

  /** int() of the two digits of each accumulation. */
  lemma AccumHours()
    ensures AllDigits("01") && DecimalValue("01") == 1
    ensures AllDigits("03") && DecimalValue("03") == 3
    ensures AllDigits("06") && DecimalValue("06") == 6
    ensures AllDigits("24") && DecimalValue("24") == 24
  {
    assert "01"[..1] == "0" && "03"[..1] == "0" && "06"[..1] == "0" && "24"[..1] == "2";
    assert "0"[..0] == "" && "2"[..0] == "";
  }

  /** int() of the number in an accumulation level: the hours it spans. */
  function AccumHrs(loa: string): (r: nat)
    requires loa in ["01h", "03h", "06h", "24h"]
    ensures r == if loa == "01h" then 1 else if loa == "03h" then 3 else if loa == "06h" then 6 else 24
  {
    var digits := if loa == "01h" then "01" else if loa == "03h" then "03"
                  else if loa == "06h" then "06" else "24";
    assert LevelGroups(loa).0 == digits by {
      AccumLevelValue(loa, digits);
    }
    assert DecimalValue(digits) == if loa == "01h" then 1 else if loa == "03h" then 3
                                   else if loa == "06h" then 6 else 24 by {
      AccumHours();
    }
    DecimalValue(LevelGroups(loa).0)
  }

  /** The interval, in hours, at which the metric is available: the
      accumulation period for the four accumulations, 12 hours for the
      three upper-air levels, otherwise every hour. */
  function MetricIntervalHrs(loa: string): (r: nat)
    ensures r > 0
    ensures loa == "01h" ==> r == 1
    ensures loa == "03h" ==> r == 3
    ensures loa == "06h" ==> r == 6
    ensures loa == "24h" ==> r == 24
    ensures loa in ["500mb", "700mb", "850mb"] ==> r == 12
    ensures loa !in ["01h", "03h", "06h", "24h", "500mb", "700mb", "850mb"] ==> r == 1
  {
    if loa in ["01h", "03h", "06h", "24h"] then AccumHrs(loa)
    else if loa in ["500mb", "700mb", "850mb"] then 12
    else 1
  }

  /** xtick_label_freq: 0 (METviewer's choice) for reliability and rank
      histograms; for the metrics plotted against forecast hour, the number
      of forecast hours with the metric over 16, rounded; any other metric
      leaves the variable unset. */
  function XtickLabelFreq(metric: string, loa: string, fcstLenHrs: int): (r: Option<nat>)
    ensures metric == "rely" || metric == "rhist" ==> r == Some(0)
    ensures r.None? <==> metric !in ["rely", "rhist", "auc", "bias", "brier", "fbias", "ss"]
    ensures r.Some? && metric !in ["rely", "rhist"] ==>
      var n := RangeLen(fcstLenHrs + 1, MetricIntervalHrs(loa));
      2 * n <= 16 * (2 * r.value + 1) && 16 * (2 * r.value - 1) <= 2 * n
  {
    if metric in ["rely", "rhist"] then Some(0)
    else if metric in ["auc", "bias", "brier", "fbias", "ss"] then
      Some(RoundSixteenth(RangeLen(fcstLenHrs + 1, MetricIntervalHrs(loa))))
    else None
  }

  // ------------------------------------------------------ METviewer names

  /** s[0:2]. */
  function Prefix2(s: string): string
  {
    if |s| >= 2 then s[..2] else s
  }

  predicate IsEnsFreqMetric(metric: string) { metric == "auc" || metric == "brier" || metric == "rely" }

  /** The forecast field as the database names it: APCP carries the first
      two characters of its accumulation; the ensemble-frequency metrics
      add "ENS_FREQ" and the operator and value, with the values 6.35, 12.7
      and 25.4 padded with zeros. */
  function FieldNameInDb(field: string, loa: string, metric: string, t: ThreshInfo): (r: string)
    ensures !IsEnsFreqMetric(metric) ==>
              r == if Upper(field) == "APCP" then "APCP_" + Prefix2(loa) else Upper(field)
  {
    var uc := Upper(field);
    var base := if uc == "APCP" then Join([uc, Prefix2(loa)], "_") else uc;
    assert uc == "APCP" ==> base == "APCP_" + Prefix2(loa) by {
      if uc == "APCP" { JoinCons(uc, [Prefix2(loa)], "_"); assert [uc] + [Prefix2(loa)] == [uc, Prefix2(loa)]; }
    }
    if !IsEnsFreqMetric(metric) then base
    else JoinNonEmpty([base, "ENS_FREQ", t.compOper + t.value], "_") + DecimalPad(t.value)
  }

  /** The zeros that bring the three precipitation thresholds to three
      decimals. */
  function DecimalPad(v: string): string
  {
    if v == "6.35" then "0" else if v == "12.7" || v == "25.4" then "00" else ""
  }

  /** For the ensemble-frequency metrics, the name ends in the threshold
      value; the three precipitation thresholds are written with three
      decimals. */
  lemma FieldNameThreeDecimals(field: string, loa: string, metric: string, t: ThreshInfo)
    requires IsEnsFreqMetric(metric) && t.value != ""
    ensures EndsWith(FieldNameInDb(field, loa, metric, t), t.value + DecimalPad(t.value))
    ensures t.value == "6.35" ==> EndsWith(FieldNameInDb(field, loa, metric, t), "6.350")
    ensures t.value == "12.7" ==> EndsWith(FieldNameInDb(field, loa, metric, t), "12.700")
    ensures t.value == "25.4" ==> EndsWith(FieldNameInDb(field, loa, metric, t), "25.400")
  {
    FieldNameEndsWithValue(field, loa, metric, t);
    assert "6.35" + "0" == "6.350" && "12.7" + "00" == "12.700" && "25.4" + "00" == "25.400";
  }

  lemma FieldNameEndsWithValue(field: string, loa: string, metric: string, t: ThreshInfo)
    requires IsEnsFreqMetric(metric) && t.value != ""
    ensures EndsWith(FieldNameInDb(field, loa, metric, t), t.value + DecimalPad(t.value))
  {
    var uc := Upper(field);
    var base := if uc == "APCP" then Join([uc, Prefix2(loa)], "_") else uc;
    var named := JoinNonEmpty([base, "ENS_FREQ", t.compOper + t.value], "_");
    assert FieldNameInDb(field, loa, metric, t) == named + DecimalPad(t.value);
    EnsFreqEnds(base, t.compOper + t.value);
    EndsWithShorter(named, t.compOper, t.value);
    EndsWithAppend(named, t.value, DecimalPad(t.value));
  }

  lemma EnsFreqEnds(base: string, ov: string)
    requires ov != ""
    ensures EndsWith(JoinNonEmpty([base, "ENS_FREQ", ov], "_"), ov)
  {
    assert [base, "ENS_FREQ", ov] == [base] + (["ENS_FREQ"] + [ov]);
    NonEmptyCons(base, ["ENS_FREQ"] + [ov]);
    NonEmptyCons("ENS_FREQ", [ov]);
    NonEmptyCons(ov, []);
    assert [ov] + [] == [ov];
    JoinCons("ENS_FREQ", [ov], "_");
    var tail := "ENS_FREQ" + "_" + ov;
    assert Join(["ENS_FREQ"] + [ov], "_") == tail;
    if base != "" {
      JoinCons(base, ["ENS_FREQ"] + [ov], "_");
      assert JoinNonEmpty([base, "ENS_FREQ", ov], "_") == (base + "_" + "ENS_FREQ" + "_") + ov;
      EndsWithOwn(base + "_" + "ENS_FREQ" + "_", ov);
    } else {
      assert JoinNonEmpty([base, "ENS_FREQ", ov], "_") == ("ENS_FREQ" + "_") + ov;
      EndsWithOwn("ENS_FREQ" + "_", ov);
    }
  }

  /** The metric's METviewer name: bias is the mean error, AUC and Brier
      score are the probabilistic statistics PSTD_ROC_AUC and PSTD_BRIER,
      every other metric is its name upper-cased. */
  function MetricNameMv(metric: string): (r: string)
    ensures Upper(metric) == "BIAS" ==> r == "ME"
    ensures Upper(metric) == "AUC" ==> r == "PSTD_ROC_AUC"
    ensures Upper(metric) == "BRIER" ==> r == "PSTD_BRIER"
    ensures Upper(metric) != "BIAS" && Upper(metric) != "AUC" && Upper(metric) != "BRIER" ==> r == Upper(metric)
  {
    var uc := Upper(metric);
    if uc == "BIAS" then "ME" else if uc == "AUC" then "PSTD_ROC_AUC"
    else if uc == "BRIER" then "PSTD_BRIER" else uc
  }

  /** The observation type: by field for precipitation (CCPA), reflectivity
      and echo top (MRMS), CAPE (upper air) and visibility (surface), and
      otherwise by level: 2 m and 10 m are surface, 500/700/850 mb upper air. */
  function ObsType(field: string, loa: string): (r: string)
    ensures r in {"", "CCPA", "MRMS", "ADPUPA", "ADPSFC"}
    ensures field == "apcp" ==> r == "CCPA"
    ensures field == "refc" || field == "retop" ==> r == "MRMS"
    ensures r == "" ==> field !in {"apcp", "refc", "retop", "cape", "vis"} &&
                        loa !in {"2m", "02m", "10m", "500mb", "700mb", "850mb"}
  {
    if field == "apcp" then "CCPA"
    else if field == "refc" || field == "retop" then "MRMS"
    else if field == "cape" then "ADPUPA"
    else if field == "vis" then "ADPSFC"
    else if loa == "2m" || loa == "02m" || loa == "10m" then "ADPSFC"
    else if loa == "500mb" || loa == "700mb" || loa == "850mb" then "ADPUPA"
    else ""
  }

  /** The template file: the metric pairs auc/brier, bias/fbias and
      rely/rhist share one template; other metrics have their own. */
  function TemplateFn(metric: string): (r: string)
    ensures EndsWith(r, ".xml")
    ensures metric == "auc" || metric == "brier" ==> r == "auc_brier.xml"
    ensures metric == "bias" || metric == "fbias" ==> r == "bias_fbias.xml"
    ensures metric == "rely" || metric == "rhist" ==> r == "rely_rhist.xml"
    ensures metric !in {"auc", "brier", "bias", "fbias", "rely", "rhist"} ==> r == metric + ".xml"
  {
    if metric == "auc" || metric == "brier" then "auc_brier.xml"
    else if metric == "bias" || metric == "fbias" then "bias_fbias.xml"
    else if metric == "rely" || metric == "rhist" then "rely_rhist.xml"
    else metric + ".xml"
  }
}
