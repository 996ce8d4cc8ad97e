/**
 * plot_vx_metviewer.py of the python_utils package: the static values
 * read from the plotting configuration, and generate_metviewer_xml, which
 * checks one plot request against them and against the host and database
 * configurations, rewrites the parsed command line in place, and works
 * out the values it hands to the xml template.  Its failures are names
 * the code reads without defining (error_out, no_thresh_stats,
 * xml_threshold) and indexes past the end of a list.
 */
module UtilsPlot {
  import opened Wrappers
  import opened PyStr
  import opened PySeq
  import opened PlotRegex
  import opened PlotParams
  import SinglePlot

  // ------------------------------------------------------ static values

  /** A forecast variable of the static file. */
  datatype FcstVarInfo = FcstVarInfo(longName: string, validLevels: seq<string>,
                                     validThresholds: seq<string>)

  /** A verification statistic of the static file. */
  datatype StatInfo = StatInfo(longName: string, needThresh: bool)

  /** The dictionary get_static_vals returns (without the colour codes). */
  datatype StaticVals = StaticVals(
    varLongNames: map<string, string>, levelsByVar: map<string, seq<string>>,
    threshesByVar: map<string, seq<string>>, statLongNames: map<string, string>,
    statNeedThresh: map<string, bool>,
    varChoices: seq<string>, levelChoices: seq<string>,
    threshChoices: seq<string>, statChoices: seq<string>)

  function Keys<T>(entries: seq<(string, T)>): (r: seq<string>)
    ensures |r| == |entries| && forall i :: 0 <= i < |entries| ==> r[i] == entries[i].0
  {
    seq(|entries|, i requires 0 <= i < |entries| => entries[i].0)
  }

  function LevelLists(vars: seq<(string, FcstVarInfo)>): (r: seq<seq<string>>)
    ensures |r| == |vars| && forall i :: 0 <= i < |vars| ==> r[i] == vars[i].1.validLevels
  {
    seq(|vars|, i requires 0 <= i < |vars| => vars[i].1.validLevels)
  }

  function ThreshLists(vars: seq<(string, FcstVarInfo)>): (r: seq<seq<string>>)
    ensures |r| == |vars| && forall i :: 0 <= i < |vars| ==> r[i] == vars[i].1.validThresholds
  {
    seq(|vars|, i requires 0 <= i < |vars| => vars[i].1.validThresholds)
  }

  /** The three per-variable maps hold the first n variables of the file. */
  predicate VarMapsHold(vars: seq<(string, FcstVarInfo)>, n: nat, longNames: map<string, string>,
                        levels: map<string, seq<string>>, threshes: map<string, seq<string>>)
    requires n <= |vars|
  {
    longNames.Keys == (set j | 0 <= j < n :: vars[j].0)
    && levels.Keys == longNames.Keys && threshes.Keys == longNames.Keys
    && forall j :: 0 <= j < n ==>
         vars[j].0 in longNames && longNames[vars[j].0] == vars[j].1.longName
         && levels[vars[j].0] == vars[j].1.validLevels
         && threshes[vars[j].0] == vars[j].1.validThresholds
  }

  /** The two per-statistic maps hold the first n statistics of the file. */
  predicate StatMapsHold(stats: seq<(string, StatInfo)>, n: nat, longNames: map<string, string>,
                         needThresh: map<string, bool>)
    requires n <= |stats|
  {
    longNames.Keys == (set j | 0 <= j < n :: stats[j].0)
    && needThresh.Keys == longNames.Keys
    && forall j :: 0 <= j < n ==>
         stats[j].0 in longNames && longNames[stats[j].0] == stats[j].1.longName
         && needThresh[stats[j].0] == stats[j].1.needThresh
  }

  /** The static values of a file: its maps, and as choices the sorted
      names and the sorted distinct levels and thresholds. */
  predicate StaticFrom(vars: seq<(string, FcstVarInfo)>, stats: seq<(string, StatInfo)>, st: StaticVals)
  {
    VarMapsHold(vars, |vars|, st.varLongNames, st.levelsByVar, st.threshesByVar)
    && StatMapsHold(stats, |stats|, st.statLongNames, st.statNeedThresh)
    && st.varChoices == SortStrings(Keys(vars)) && st.statChoices == SortStrings(Keys(stats))
    && st.levelChoices == SortedSet(Flatten(LevelLists(vars)))
    && st.threshChoices == SortedSet(Flatten(ThreshLists(vars)))
  }

  /** sorted(list(set(...))) of a flattened list, through a list of the
      distinct elements in whatever order list() gives them. */
  method SortedDistinct(items: seq<string>) returns (r: seq<string>)
    ensures r == SortedSet(items)
  {
    var distinct := SetToList(set x | x in items);
    r := SortStrings(distinct);
    SortedSetOfAnyOrder(distinct, items);
  }

  /** The names of the first i + 1 entries: those of the first i and one more. */
  lemma NamesStep<T>(entries: seq<(string, T)>, i: nat)
    requires i < |entries|
    ensures (set j | 0 <= j < i + 1 :: entries[j].0) == (set j | 0 <= j < i :: entries[j].0) + {entries[i].0}
  {
  }

  /** One more variable in the maps. */
  lemma VarMapsStep(vars: seq<(string, FcstVarInfo)>, i: nat, longNames: map<string, string>,
                    levels: map<string, seq<string>>, threshes: map<string, seq<string>>)
    requires i < |vars| && NoDup(Keys(vars))
    requires VarMapsHold(vars, i, longNames, levels, threshes)
    ensures VarMapsHold(vars, i + 1, longNames[vars[i].0 := vars[i].1.longName],
                        levels[vars[i].0 := vars[i].1.validLevels],
                        threshes[vars[i].0 := vars[i].1.validThresholds])
  {
    var v := vars[i].0;
    var ln, lv, th := longNames[v := vars[i].1.longName], levels[v := vars[i].1.validLevels],
                      threshes[v := vars[i].1.validThresholds];
    assert ln.Keys == longNames.Keys + {v};
    NamesStep(vars, i);
    forall j | 0 <= j < i + 1
      ensures vars[j].0 in ln && ln[vars[j].0] == vars[j].1.longName
              && lv[vars[j].0] == vars[j].1.validLevels && th[vars[j].0] == vars[j].1.validThresholds
    {
      if j < i {
        assert vars[j].0 != v by {
          assert Keys(vars)[j] != Keys(vars)[i];
        }
      }
    }
  }

  /** The loop filling the per-variable maps. */
  method LoadVarMaps(vars: seq<(string, FcstVarInfo)>)
      returns (longNames: map<string, string>, levels: map<string, seq<string>>,
               threshes: map<string, seq<string>>)
    requires NoDup(Keys(vars))
    ensures VarMapsHold(vars, |vars|, longNames, levels, threshes)
  {
    longNames, levels, threshes := map[], map[], map[];
    for i := 0 to |vars|
      invariant VarMapsHold(vars, i, longNames, levels, threshes)
    {
      VarMapsStep(vars, i, longNames, levels, threshes);
      var v := vars[i].0;
      longNames := longNames[v := vars[i].1.longName];
      levels := levels[v := vars[i].1.validLevels];
      threshes := threshes[v := vars[i].1.validThresholds];
    }
  }

  lemma StatMapsStep(stats: seq<(string, StatInfo)>, i: nat, longNames: map<string, string>,
                     needThresh: map<string, bool>)
    requires i < |stats| && NoDup(Keys(stats))
    requires StatMapsHold(stats, i, longNames, needThresh)
    ensures StatMapsHold(stats, i + 1, longNames[stats[i].0 := stats[i].1.longName],
                         needThresh[stats[i].0 := stats[i].1.needThresh])
  {
    var s := stats[i].0;
    var ln, nt := longNames[s := stats[i].1.longName], needThresh[s := stats[i].1.needThresh];
    assert ln.Keys == longNames.Keys + {s};
    NamesStep(stats, i);
    forall j | 0 <= j < i + 1
      ensures stats[j].0 in ln && ln[stats[j].0] == stats[j].1.longName
              && nt[stats[j].0] == stats[j].1.needThresh
    {
      if j < i {
        assert stats[j].0 != s by {
          assert Keys(stats)[j] != Keys(stats)[i];
        }
      }
    }
  }

  /** The loop filling the per-statistic maps. */
  method LoadStatMaps(stats: seq<(string, StatInfo)>)
      returns (longNames: map<string, string>, needThresh: map<string, bool>)
    requires NoDup(Keys(stats))
    ensures StatMapsHold(stats, |stats|, longNames, needThresh)
  {
    longNames, needThresh := map[], map[];
    for i := 0 to |stats|
      invariant StatMapsHold(stats, i, longNames, needThresh)
    {
      StatMapsStep(stats, i, longNames, needThresh);
      var (s, info) := stats[i];
      longNames := longNames[s := info.longName];
      needThresh := needThresh[s := info.needThresh];
    }
  }

  /** The level choices are exactly the levels valid for some variable. */
  lemma LevelChoicesCover(vars: seq<(string, FcstVarInfo)>, longNames: map<string, string>,
                          levels: map<string, seq<string>>, threshes: map<string, seq<string>>)
    requires VarMapsHold(vars, |vars|, longNames, levels, threshes)
    ensures forall v, l :: v in levels && l in levels[v] ==> l in SortedSet(Flatten(LevelLists(vars)))
    ensures forall l :: l in SortedSet(Flatten(LevelLists(vars))) ==> exists v :: v in levels && l in levels[v]
  {
    var choices := SortedSet(Flatten(LevelLists(vars)));
    forall v, l | v in levels && l in levels[v]
      ensures l in choices
    {
      var j :| 0 <= j < |vars| && vars[j].0 == v;
      assert l in LevelLists(vars)[j];
    }
    forall l | l in choices
      ensures exists v :: v in levels && l in levels[v]
    {
      var j :| 0 <= j < |LevelLists(vars)| && l in LevelLists(vars)[j];
      assert l in levels[vars[j].0];
    }
  }

  /**
   * get_static_vals: the variables and statistics of the static file
   * (each listed once, as the keys of a YAML mapping are) go into their
   * maps, and the choices offered on the command line are the sorted
   * names and the sorted distinct levels and thresholds of all variables.
   */
  method GetStaticVals(vars: seq<(string, FcstVarInfo)>, stats: seq<(string, StatInfo)>)
      returns (st: StaticVals)
    requires NoDup(Keys(vars)) && NoDup(Keys(stats))
    ensures StaticFrom(vars, stats, st)
    ensures forall v, l :: v in st.levelsByVar && l in st.levelsByVar[v] ==> l in st.levelChoices
    ensures forall l :: l in st.levelChoices ==> exists v :: v in st.levelsByVar && l in st.levelsByVar[v]
  {
    var longNames, levels, threshes := LoadVarMaps(vars);
    var statLongNames, needThresh := LoadStatMaps(stats);
    var levelChoices := SortedDistinct(Flatten(LevelLists(vars)));
    var threshChoices := SortedDistinct(Flatten(ThreshLists(vars)));
    LevelChoicesCover(vars, longNames, levels, threshes);
    st := StaticVals(longNames, levels, threshes, statLongNames, needThresh,
                     SortStrings(Keys(vars)), levelChoices, threshChoices, SortStrings(Keys(stats)));
  }

  // ------------------------------------------------------------- level

  /** The level as generate_metviewer_xml parses it: the number and units
      of the first match, the number without and with zero padding, and
      the name METviewer knows the level by. */
  datatype LevelParse = LevelParse(value: string, units: string, no0pad: string,
                                   zeroPadded: string, nameMv: string)

  /** Metres and hours are padded to two digits, millibars to three; "hr"
      counts as hours here. */
  function PadWidthOf(units: string): nat
  {
    if units == "m" || units == "h" || units == "hr" then 2 else if units == "mb" then 3 else 0
  }

  /** The letter METviewer puts before a level number: Z for heights in
      metres, P for pressures in millibars, A for accumulations in hours;
      none for other units. */
  function LevelLetter(units: string): string
  {
    if units == "m" then "Z" else if units == "mb" then "P"
    else if units == "h" || units == "hr" then "A" else ""
  }

  function ParseLevelToken(loa: string): (r: LevelParse)
    ensures r.no0pad == LStripChar(r.value, '0')
    ensures LStripChar(r.zeroPadded, '0') == r.no0pad
    ensures |r.zeroPadded| == Max(|r.no0pad|, PadWidthOf(r.units))
    ensures FindLevel(loa).None? ==> r == LevelParse("", "", "", "", loa)
    ensures LevelLetter(r.units) == "" ==> r.nameMv == loa
    ensures LevelLetter(r.units) != "" ==> r.nameMv == LevelLetter(r.units) + r.no0pad
  {
    var (v, u) := LevelGroups(loa);
    var n := LStripChar(v, '0');
    assert n == [] || n[0] == v[|v| - |n|];
    ZFillStripRoundTrip(n, PadWidthOf(u));
    LevelParse(v, u, n, ZFill(n, PadWidthOf(u)), if LevelLetter(u) == "" then loa else LevelLetter(u) + n)
  }

  /** Digits and one of the four known units: METviewer's name is the
      unit letter and the number without leading zeros. */
  lemma LevelTokenNamed(a: string, units: string)
    requires AllDigits(a) && |a| > 0
    requires units == "m" || units == "mb" || units == "h" || units == "hr"
    ensures var n := LStripChar(a, '0');
            ParseLevelToken(a + units) ==
              LevelParse(a, units, n, ZFill(n, PadWidthOf(units)), LevelLetter(units) + n)
  {
    assert AllLetters(units);
    LevelGroupsOfToken(a, units);
  }

  /** Digits and other units: the level keeps its own name and is not
      padded. */
  lemma LevelTokenOtherUnits(a: string, units: string)
    requires AllDigits(a) && |a| > 0
    requires |units| > 0 && AllLetters(units)
    requires units != "m" && units != "mb" && units != "h" && units != "hr"
    ensures ParseLevelToken(a + units).nameMv == a + units
    ensures ParseLevelToken(a + units).value == a && ParseLevelToken(a + units).units == units
    ensures |ParseLevelToken(a + units).zeroPadded| == |LStripChar(a, '0')|
  {
    LevelGroupsOfToken(a, units);
  }

  /** The surface level "L0" has no number or units and keeps its name. */
  lemma SurfaceLevelKept()
    ensures ParseLevelToken("L0") == LevelParse("", "", "", "", "L0")
  {
    SurfaceLevelNoMatch();
  }

  /** Where the other single-plot scripts accept a level, this script
      reads the same number, units and padding from it. */
  lemma LevelParsesAgree(field: string, loa: string, validForField: seq<string>)
    requires loa in validForField && IsLevelUnits(LevelGroups(loa).1)
    ensures var p := ParseLevelToken(loa);
            ParseLevel(field, loa, validForField) == Ok(LevelInfo(p.value, p.units, p.no0pad, p.zeroPadded))
  {
  }

  // --------------------------------------------------------- threshold

  /** The threshold parts and the threshold as the xml writes it. */
  datatype ThreshParse = ThreshParse(compOper: string, value: string, units: string, xml: string)

  const NoThreshParse := ThreshParse("", "", "", "")

  /** The escaped operator: &lt; for an operator starting with l, &gt;
      otherwise, with "=" when its second letter is e. */
  function XmlOper(oper: string): string
    requires |oper| >= 2
  {
    (if oper[0] == 'l' then "&lt;" else "&gt;") + (if oper[1] == 'e' then "=" else "")
  }

  /** On the four operators this is the database's escaping. */
  lemma XmlOperAgrees(oper: string)
    requires CompOperXml(oper).Some?
    ensures XmlOper(oper) == CompOperXml(oper).value
  {
  }

  /**
   * The threshold parsing of generate_metviewer_xml (the units are part
   * of the pattern).  Only the first two letters of the operator are
   * read: the first must be l or g, and an e second adds "=".  A
   * one-letter operator is indexed past its end, and any other first
   * letter leaves xml_threshold unassigned.
   */
  function ParseThreshToken(thresh: string): (r: Result<ThreshParse, Failure>)
    ensures FindThresh(thresh, true).None? ==> r == Ok(NoThreshParse)
    ensures FindThresh(thresh, true).Some? && |FindThresh(thresh, true).value.oper| < 2 ==>
              r == Err(IndexOutOfRange("thresh_comp_oper"))
    ensures FindThresh(thresh, true).Some? ==>
              (r.Ok? <==> |FindThresh(thresh, true).value.oper| >= 2
                          && FindThresh(thresh, true).value.oper[0] in "lg")
    ensures FindThresh(thresh, true).Some? && r.Ok? ==>
              var p := FindThresh(thresh, true).value;
              r.value == ThreshParse(p.oper, p.value, p.units, XmlOper(p.oper) + p.value)
  {
    match FindThresh(thresh, true)
    case None => Ok(NoThreshParse)
    case Some(p) =>
      if |p.oper| < 2 then Err(IndexOutOfRange("thresh_comp_oper"))
      else if p.oper[0] != 'l' && p.oper[0] != 'g' then Err(UndefinedName("xml_threshold"))
      else Ok(ThreshParse(p.oper, p.value, p.units, XmlOper(p.oper) + p.value))
  }

  /** A threshold written as operator letters, a number and unit letters,
      taken apart into those pieces. */
  lemma ThreshTokenOfParts(op: string, a: string, b: string, c: string, units: string)
    requires |op| > 0 && AllLetters(op)
    requires AllDigits(a) && AllDots(b) && AllDigits(c) && |c| > 0
    requires |units| > 0 && AllLetters(units)
    ensures var t := op + a + b + c + units;
            ParseThreshToken(t) ==
              if |op| < 2 then Err(IndexOutOfRange("thresh_comp_oper"))
              else if op[0] != 'l' && op[0] != 'g' then Err(UndefinedName("xml_threshold"))
              else Ok(ThreshParse(op, a + b + c, units, XmlOper(op) + (a + b + c)))
  {
    ThreshRoundTrip(op, a, b, c, units, true);
  }

  /** For the four operators, the xml threshold is the database form the
      other single-plot scripts compute. */
  lemma ThreshTokenAgrees(op: string, a: string, b: string, c: string, units: string)
    requires op == "lt" || op == "le" || op == "gt" || op == "ge"
    requires AllDigits(a) && AllDots(b) && AllDigits(c) && |c| > 0
    requires |units| > 0 && AllLetters(units)
    ensures var t := op + a + b + c + units;
            GetThreshInfo(t).Ok? &&
            ParseThreshToken(t) == Ok(ThreshParse(op, a + b + c, units, GetThreshInfo(t).value.inDb))
  {
    assert AllLetters(op);
    ThreshTokenOfParts(op, a, b, c, units);
    ThreshInfoRoundTrip(op, a, b, c, units);
    XmlOperAgrees(op);
  }

  // ---------------------------------------------- threshold stage (finding)

  /** The threshold stage as written: a threshold given with a statistic
      that needs none reaches a log message built from no_thresh_stats, a
      name defined nowhere, so the reset below it never happens. */
  function ThreshStageAsWritten(needThresh: bool, valid: seq<string>, thresh: string): (r: Result<string, Failure>)
    ensures !needThresh && thresh != "" ==> r == Err(UndefinedName("no_thresh_stats"))
    ensures r.Ok? ==> r.value == thresh
  {
    if !needThresh && thresh != "" then Err(UndefinedName("no_thresh_stats"))
    else if needThresh && thresh !in valid then Err(UndefinedName("error_out"))
    else Ok(thresh)
  }

  /** The threshold stage as intended: an unneeded threshold is dropped,
      a needed one must be valid for the variable. */
  function ThreshStage(needThresh: bool, valid: seq<string>, thresh: string): (r: Result<string, Failure>)
    ensures !needThresh ==> r == Ok("")
    ensures needThresh ==> (r.Ok? <==> thresh in valid)
    ensures r.Ok? ==> r.value == EffectiveThreshold(needThresh, thresh)
    ensures r.Err? ==> r == Err(UndefinedName("error_out"))
  {
    if needThresh && thresh !in valid then Err(UndefinedName("error_out"))
    else Ok(EffectiveThreshold(needThresh, thresh))
  }

  /** The two stages differ exactly on an unneeded, non-empty threshold:
      there the written one fails and the intended one goes on without it. */
  lemma ThreshStagesDiffer(needThresh: bool, valid: seq<string>, thresh: string)
    ensures ThreshStageAsWritten(needThresh, valid, thresh) != ThreshStage(needThresh, valid, thresh)
            <==> !needThresh && thresh != ""
    ensures !needThresh && thresh != "" ==>
              ThreshStageAsWritten(needThresh, valid, thresh).Err? && ThreshStage(needThresh, valid, thresh) == Ok("")
  {
  }

  // ------------------------------------------------- line types (finding)

  /** The line_types loop as written runs over every model of the
      database, and reads the ensemble size at that position of the list
      of selected models. */
  function LineTypesAsWritten(numModels: nat, numEnsMems: seq<nat>, incl: bool): (r: Result<seq<string>, Failure>)
    ensures r.Ok? <==> numModels <= |numEnsMems|
    ensures r.Err? ==> r == Err(IndexOutOfRange("num_ens_mems"))
    ensures r.Ok? ==> |r.value| == NumSeries(numEnsMems[..numModels], incl)
  {
    if numModels > |numEnsMems| then Err(IndexOutOfRange("num_ens_mems"))
    else
      LineTypesCount(numEnsMems[..numModels], incl);
      Ok(LineTypesOf(numEnsMems[..numModels], incl))
  }

  method BuildLineTypesAsWritten(numModels: nat, numEnsMems: seq<nat>, incl: bool)
      returns (r: Result<seq<string>, Failure>)
    ensures r == LineTypesAsWritten(numModels, numEnsMems, incl)
  {
    var lineTypes := [];
    for imod := 0 to numModels
      invariant imod <= |numEnsMems|
      invariant lineTypes == LineTypesOf(numEnsMems[..imod], incl)
    {
      if incl {
        lineTypes := lineTypes + ["b"];
      }
      if imod >= |numEnsMems| {
        return Err(IndexOutOfRange("num_ens_mems"));
      }
      lineTypes := lineTypes + RepeatStr("l", numEnsMems[imod]);
      assert numEnsMems[..imod + 1][..imod] == numEnsMems[..imod];
    }
    r := Ok(lineTypes);
  }

  /** The model entries of the database configuration file. */
  datatype ModelEntry = ModelEntry(numEnsMems: int, nameInDb: string)

  datatype ModelsDb = ModelsDb(dbName: string, models: map<string, ModelEntry>)

  /** Selecting only some of the database's models, each once, stops the
      loop with an IndexError whatever their ensemble sizes. */
  lemma FewerModelsThanDatabase(db: ModelsDb, names: seq<string>, ens: seq<nat>, incl: bool)
    requires NoDup(names) && forall m :: m in names ==> m in db.models
    requires exists m :: m in db.models && m !in names
    requires |ens| == |names|
    ensures LineTypesAsWritten(|db.models|, ens, incl).Err?
  {
    var chosen := set x | x in names;
    var m :| m in db.models && m !in names;
    CardOfNoDup(names);
    var keys := db.models.Keys;
    assert chosen + {m} <= keys;
    assert keys == (chosen + {m}) + (keys - (chosen + {m}));
    assert |chosen + {m}| == |chosen| + 1;
  }

  /** With one pass per selected model, the loop succeeds and gives one
      line type per series. */
  lemma LineTypesForSelectedModels(numEnsMems: seq<nat>, incl: bool)
    ensures LineTypesAsWritten(|numEnsMems|, numEnsMems, incl) == Ok(LineTypesOf(numEnsMems, incl))
    ensures |LineTypesOf(numEnsMems, incl)| == NumSeries(numEnsMems, incl)
  {
    assert numEnsMems[..|numEnsMems|] == numEnsMems;
    LineTypesCount(numEnsMems, incl);
  }

  // ----------------------------------------------------- titles and names

  /** The level as titles show it: the surface level "L0" is left out. */
  function LevelStr(loa: string): (r: string)
    ensures r == "" <==> loa == "" || loa == "L0"
  {
    if loa == "L0" then "" else loa
  }

  function VarLevelStr(fcstVar: string, loa: string): string
  {
    JoinNonEmpty([Upper(fcstVar), LevelStr(loa)], "")
  }

  function ThresholdStr(t: ThreshParse): string
  {
    JoinNonEmpty([t.compOper, t.value, t.units], "")
  }

  function VarLevelThreshStr(fcstVar: string, loa: string, t: ThreshParse): string
  {
    JoinNonEmpty([VarLevelStr(fcstVar, loa), ThresholdStr(t)], "_")
  }

  /** The job title: statistic, variable-level-threshold and models,
      joined with underscores without dropping anything. */
  function JobTitleOf(stat: string, fcstVar: string, loa: string, t: ThreshParse, names: seq<string>): string
  {
    Join([stat, VarLevelThreshStr(fcstVar, loa, t), Join(names, "_")], "_")
  }

  /** The plot title: statistic long name, "for", the level, the variable
      long name, the xml threshold and its units, empty parts dropped. */
  function TitleForPlot(statLong: string, loa: string, varLong: string, t: ThreshParse): string
  {
    JoinNonEmpty([statLong, "for", LevelStr(loa), varLong, t.xml, t.units], " ")
  }

  /** The xml file name: "plot", the statistic, the variable and level,
      the threshold as given and the models, empty parts dropped. */
  function XmlFileName(stat: string, fcstVar: string, loa: string, threshold: string,
                       names: seq<string>): string
  {
    JoinNonEmpty(["plot", stat, Upper(fcstVar) + LevelStr(loa), threshold, Join(names, "_")], "_") + ".xml"
  }

  lemma JoinPairEmptyFree(x: string, y: string)
    ensures JoinNonEmpty([x, y], "") == x + y
  {
    assert [x, y] == [x] + [y] && [y] == [y] + [];
    NonEmptyCons(x, [y]);
    NonEmptyCons(y, []);
    if x != "" && y != "" {
      assert NonEmpty([x, y]) == [x] + [y];
      JoinCons(x, [y], "");
    }
  }

  /** The variable in capitals followed by the level (none for "L0"),
      then, only when there is a threshold, an underscore and its parts. */
  lemma VarLevelThreshShape(fcstVar: string, loa: string, t: ThreshParse)
    requires fcstVar != ""
    ensures VarLevelStr(fcstVar, loa) == Upper(fcstVar) + LevelStr(loa)
    ensures ThresholdStr(t) == t.compOper + t.value + t.units
    ensures VarLevelThreshStr(fcstVar, loa, t) ==
            VarLevelStr(fcstVar, loa) + (if ThresholdStr(t) == "" then "" else "_" + ThresholdStr(t))
  {
    JoinPairEmptyFree(Upper(fcstVar), LevelStr(loa));
    JoinEmptyFree(t.compOper, t.value, t.units);
    JoinUnderscorePair(VarLevelStr(fcstVar, loa), ThresholdStr(t));
  }

  /** Two parts joined with "_" after dropping an empty second one. */
  lemma JoinUnderscorePair(v: string, s: string)
    requires v != ""
    ensures JoinNonEmpty([v, s], "_") == v + (if s == "" then "" else "_" + s)
  {
    assert [v, s] == [v] + [s] && [s] + [] == [s];
    NonEmptyCons(v, [s]);
    NonEmptyCons(s, []);
    if s != "" {
      assert NonEmpty([v, s]) == [v] + [s];
      JoinCons(v, [s], "_");
    }
  }

  /** Where the level string is the number and units the other
      single-plot scripts parse, the job titles agree. */
  lemma JobTitlesAgree(stat: string, fcstVar: string, loa: string, lvl: LevelInfo,
                       t: ThreshParse, ti: ThreshInfo, names: seq<string>)
    requires fcstVar != "" && lvl.value + lvl.units == LevelStr(loa)
    requires t.compOper == ti.compOper && t.value == ti.value && t.units == ti.units
    ensures JobTitleOf(stat, fcstVar, loa, t, names) == JobTitle(stat, fcstVar, lvl, ti, names)
  {
    VarLevelThreshShape(fcstVar, loa, t);
    VarLvlThreshShape(fcstVar, lvl, ti);
    assert VarLevelStr(fcstVar, loa) == VarLvlStr(fcstVar, lvl);
    assert ThresholdStr(t) == ThreshStr(ti);
    assert VarLevelThreshStr(fcstVar, loa, t) == VarLvlThreshStr(fcstVar, lvl, ti);
  }

  /** With a statistic, a variable and at least one model, the file name
      is plot_<stat>_<VAR><level>[_<threshold>]_<models>.xml. */
  lemma XmlFileNameShape(stat: string, fcstVar: string, loa: string, threshold: string, names: seq<string>)
    requires stat != "" && fcstVar != "" && |names| > 0 && names[0] != ""
    ensures XmlFileName(stat, fcstVar, loa, threshold, names) ==
            "plot" + "_" + stat + "_" + (Upper(fcstVar) + LevelStr(loa)) +
            (if threshold == "" then "" else "_" + threshold) + "_" + Join(names, "_") + ".xml"
  {
    JoinedNonEmpty(names);
    JoinSkipping("plot", stat, Upper(fcstVar) + LevelStr(loa), threshold, Join(names, "_"), "_");
  }

  /** Models joined with underscores are non-empty when the first is. */
  lemma JoinedNonEmpty(names: seq<string>)
    requires |names| > 0 && names[0] != ""
    ensures Join(names, "_") != ""
  {
    if |names| > 1 {
      assert [names[0]] + names[1..] == names;
      JoinCons(names[0], names[1..], "_");
    }
  }

  /** The variable as the database names it: in capitals, APCP with the
      first two characters of its accumulation, the ensemble-frequency
      statistics with "ENS_FREQ", and those and the rank histogram with
      the operator and value when there is a threshold. */
  function VarNameInDb(fcstVar: string, loa: string, stat: string, t: ThreshParse): (r: string)
    ensures !IsEnsFreqMetric(stat) && stat != "rhist" ==>
              r == if Upper(fcstVar) == "APCP" then "APCP_" + Prefix2(loa) else Upper(fcstVar)
  {
    var uc := Upper(fcstVar);
    var base := if uc == "APCP" then Join([uc, Prefix2(loa)], "_") else uc;
    assert uc == "APCP" ==> base == "APCP_" + Prefix2(loa) by {
      if uc == "APCP" { JoinCons(uc, [Prefix2(loa)], "_"); assert [uc] + [Prefix2(loa)] == [uc, Prefix2(loa)]; }
    }
    var named := if IsEnsFreqMetric(stat) then Join([base, "ENS_FREQ"], "_") else base;
    if IsEnsFreqMetric(stat) || stat == "rhist" then JoinNonEmpty([named, t.compOper + t.value], "_")
    else named
  }

  /** For the ensemble-frequency statistics this is the name the other
      single-plot scripts give, wherever they add no decimal padding. */
  lemma DbNamesAgree(fcstVar: string, loa: string, stat: string, t: ThreshParse, ti: ThreshInfo)
    requires IsEnsFreqMetric(stat) && fcstVar != ""
    requires t.compOper == ti.compOper && t.value == ti.value && DecimalPad(ti.value) == ""
    ensures VarNameInDb(fcstVar, loa, stat, t) == FieldNameInDb(fcstVar, loa, stat, ti)
  {
    var uc := Upper(fcstVar);
    var base := if uc == "APCP" then Join([uc, Prefix2(loa)], "_") else uc;
    assert base != "" by {
      if uc == "APCP" { JoinCons(uc, [Prefix2(loa)], "_"); assert [uc] + [Prefix2(loa)] == [uc, Prefix2(loa)]; }
    }
    var ov := t.compOper + t.value;
    assert VarNameInDb(fcstVar, loa, stat, t) == JoinNonEmpty([Join([base, "ENS_FREQ"], "_"), ov], "_");
    assert FieldNameInDb(fcstVar, loa, stat, ti) == JoinNonEmpty([base, "ENS_FREQ", ov], "_");
    EnsFreqNamed(base, ov);
  }

  /** Adding "ENS_FREQ" first and the operator and value after gives the
      same name as joining the three at once. */
  lemma EnsFreqNamed(base: string, ov: string)
    requires base != ""
    ensures JoinNonEmpty([Join([base, "ENS_FREQ"], "_"), ov], "_") == JoinNonEmpty([base, "ENS_FREQ", ov], "_")
  {
    var named := Join([base, "ENS_FREQ"], "_");
    JoinCons(base, ["ENS_FREQ"], "_");
    assert [base] + ["ENS_FREQ"] == [base, "ENS_FREQ"];
    assert named == base + "_" + "ENS_FREQ";
    assert [named, ov] == [named] + [ov] && [ov] + [] == [ov];
    NonEmptyCons(named, [ov]);
    NonEmptyCons(ov, []);
    assert [base, "ENS_FREQ", ov] == [base] + (["ENS_FREQ"] + [ov]);
    NonEmptyCons(base, ["ENS_FREQ"] + [ov]);
    NonEmptyCons("ENS_FREQ", [ov]);
    if ov != "" {
      assert NonEmpty([named, ov]) == [named] + [ov];
      assert NonEmpty([base, "ENS_FREQ", ov]) == [base] + (["ENS_FREQ"] + [ov]);
      JoinCons(named, [ov], "_");
      JoinCons("ENS_FREQ", [ov], "_");
      JoinCons(base, ["ENS_FREQ"] + [ov], "_");
    } else {
      assert NonEmpty([named, ov]) == [named];
      assert NonEmpty([base, "ENS_FREQ", ov]) == [base] + ["ENS_FREQ"];
    }
  }

  /** The observation type: by variable for precipitation (CCPA) and
      reflectivity (MRMS), otherwise by variable and level for five
      surface and upper-air combinations. */
  function ObsTypeOf(fcstVar: string, varLvl: string): (r: string)
    ensures r in {"", "CCPA", "MRMS", "ADPSFC", "ADPUPA"}
    ensures fcstVar == "apcp" ==> r == "CCPA"
    ensures r == "" <==> fcstVar != "apcp" && fcstVar != "refc" &&
                         varLvl !in {"DPT2m", "TMP2m", "WIND10m", "TMP850mb", "WIND700mb"}
  {
    if fcstVar == "apcp" then "CCPA"
    else if fcstVar == "refc" then "MRMS"
    else if varLvl in ["DPT2m", "TMP2m", "WIND10m"] then "ADPSFC"
    else if varLvl in ["TMP850mb", "WIND700mb"] then "ADPUPA"
    else ""
  }

  lemma UpperVarNames()
    ensures Upper("tmp") == "TMP" && Upper("dpt") == "DPT" && Upper("wind") == "WIND"
  {
    var tmp, dpt, wind := Upper("tmp"), Upper("dpt"), Upper("wind");
    assert tmp == "TMP" by { assert |tmp| == 3 && tmp[0] == 'T' && tmp[1] == 'M' && tmp[2] == 'P'; }
    assert dpt == "DPT" by { assert |dpt| == 3 && dpt[0] == 'D' && dpt[1] == 'P' && dpt[2] == 'T'; }
    assert wind == "WIND" by {
      assert |wind| == 4 && wind[0] == 'W' && wind[1] == 'I' && wind[2] == 'N' && wind[3] == 'D';
    }
  }

  /** A level other than "L0" follows the variable in capitals directly. */
  lemma VarLevelStrOf(fcstVar: string, loa: string)
    requires loa != "L0"
    ensures VarLevelStr(fcstVar, loa) == Upper(fcstVar) + loa
  {
    JoinPairEmptyFree(Upper(fcstVar), loa);
  }

  /** The levels the other single-plot scripts type by level alone. */
  predicate TypedLevel(loa: string)
  {
    loa == "2m" || loa == "10m" || loa == "500mb" || loa == "700mb" || loa == "850mb"
  }

  /** The combinations of variable and level this script gives an
      observation type outside precipitation and reflectivity. */
  predicate TypedHere(fcstVar: string, loa: string)
  {
    (fcstVar == "tmp" && (loa == "2m" || loa == "850mb")) || (fcstVar == "dpt" && loa == "2m")
    || (fcstVar == "wind" && (loa == "10m" || loa == "700mb"))
  }

  /** Over temperature, dew point and wind at the surface and upper-air
      levels the other single-plot scripts type, this script gives the same
      observation type exactly on its five combinations, and no type on
      the others. */
  lemma ObsTypesAgree(fcstVar: string, loa: string)
    requires (fcstVar == "tmp" || fcstVar == "dpt" || fcstVar == "wind") && TypedLevel(loa)
    ensures ObsType(fcstVar, loa) != ""
    ensures ObsTypeOf(fcstVar, VarLevelStr(fcstVar, loa)) == ObsType(fcstVar, loa) <==> TypedHere(fcstVar, loa)
    ensures !TypedHere(fcstVar, loa) ==> ObsTypeOf(fcstVar, VarLevelStr(fcstVar, loa)) == ""
  {
    if fcstVar == "tmp" {
      TmpObsTypes(loa);
    } else if fcstVar == "dpt" {
      DptObsTypes(loa);
    } else {
      WindObsTypes(loa);
    }
  }

  /** The other scripts type these variables by level alone. */
  lemma LevelObsType(fcstVar: string, loa: string)
    requires (fcstVar == "tmp" || fcstVar == "dpt" || fcstVar == "wind") && TypedLevel(loa)
    ensures ObsType(fcstVar, loa) == if loa == "2m" || loa == "10m" then "ADPSFC" else "ADPUPA"
  {
    assert fcstVar[0] != 'a' && fcstVar[0] != 'r' && fcstVar[0] != 'c' && fcstVar[0] != 'v';
    assert "apcp"[0] == 'a' && "refc"[0] == 'r' && "retop"[0] == 'r' && "cape"[0] == 'c' && "vis"[0] == 'v';
  }

  /** Two strings that differ at one position are different. */
  lemma DifferAt(a: string, b: string, i: nat)
    requires i < |a| && i < |b| && a[i] != b[i]
    ensures a != b
  {
  }

  /** This script's type for tmp at a level the others type. */
  lemma TmpTyped(loa: string)
    requires TypedLevel(loa)
    ensures ObsTypeOf("tmp", "TMP" + loa) == if loa == "2m" then "ADPSFC" else if loa == "850mb" then "ADPUPA" else ""
  {
    var s := "TMP" + loa;
    if loa == "2m" {
      assert s == "TMP2m";
    } else if loa == "850mb" {
      assert s == "TMP850mb";
      DifferAt(s, "WIND700mb", 0);
    } else if |loa| == 5 {
      assert s[3] == loa[0] != '8';
      DifferAt(s, "TMP850mb", 3);
    }
  }

  lemma TmpObsTypes(loa: string)
    requires TypedLevel(loa)
    ensures var here := ObsTypeOf("tmp", VarLevelStr("tmp", loa));
            (here == ObsType("tmp", loa) <==> TypedHere("tmp", loa)) && (!TypedHere("tmp", loa) ==> here == "")
  {
    TmpTyped(loa);
    assert VarLevelStr("tmp", loa) == "TMP" + loa by { UpperVarNames(); VarLevelStrOf("tmp", loa); }
    LevelObsType("tmp", loa);
  }

  /** This script's type for dpt at a level the others type. */
  lemma DptTyped(loa: string)
    requires TypedLevel(loa)
    ensures ObsTypeOf("dpt", "DPT" + loa) == if loa == "2m" then "ADPSFC" else ""
  {
    var s := "DPT" + loa;
    if loa == "2m" {
      assert s == "DPT2m";
    } else if |loa| == 5 {
      DifferAt(s, "TMP850mb", 0);
    }
  }

  lemma DptObsTypes(loa: string)
    requires TypedLevel(loa)
    ensures var here := ObsTypeOf("dpt", VarLevelStr("dpt", loa));
            (here == ObsType("dpt", loa) <==> TypedHere("dpt", loa)) && (!TypedHere("dpt", loa) ==> here == "")
  {
    DptTyped(loa);
    assert VarLevelStr("dpt", loa) == "DPT" + loa by { UpperVarNames(); VarLevelStrOf("dpt", loa); }
    LevelObsType("dpt", loa);
  }

  /** This script's type for wind at a level the others type. */
  lemma WindTyped(loa: string)
    requires TypedLevel(loa)
    ensures ObsTypeOf("wind", "WIND" + loa) == if loa == "10m" then "ADPSFC" else if loa == "700mb" then "ADPUPA" else ""
  {
    var s := "WIND" + loa;
    if loa == "10m" {
      assert s == "WIND10m";
    } else if loa == "700mb" {
      assert s == "WIND700mb";
    } else if |loa| == 5 {
      assert s[4] == loa[0] != '7';
      DifferAt(s, "WIND700mb", 4);
    }
  }

  lemma WindObsTypes(loa: string)
    requires TypedLevel(loa)
    ensures var here := ObsTypeOf("wind", VarLevelStr("wind", loa));
            (here == ObsType("wind", loa) <==> TypedHere("wind", loa)) && (!TypedHere("wind", loa) ==> here == "")
  {
    WindTyped(loa);
    assert VarLevelStr("wind", loa) == "WIND" + loa by { UpperVarNames(); VarLevelStrOf("wind", loa); }
    LevelObsType("wind", loa);
  }

  /** Temperature at 500 mb, a level this script accepts for it, gets no
      observation type here, where the other scripts use upper-air data. */
  lemma Tmp500mbObsTypeDiffers()
    ensures ObsTypeOf("tmp", VarLevelStr("tmp", "500mb")) == "" && ObsType("tmp", "500mb") == "ADPUPA"
  {
    ObsTypesAgree("tmp", "500mb");
    LevelObsType("tmp", "500mb");
  }

  // ------------------------------------------------------ the command line

  /** The parsed command line, as values (the colours and the forecast
      initialisation times are not part of this model). */
  datatype Args = Args(host: string, outputDir: string, modelNames: seq<string>, stat: string,
                       inclEnsMeans: Option<bool>, fcstLenHrs: int, fcstVar: string,
                       levelOrAccum: Option<string>, threshold: string)

  /** The argparse namespace: the two options generate_metviewer_xml
      rewrites are variables, the rest constants. */
  class CommandLine {
    const host: string
    const outputDir: string
    const modelNames: seq<string>
    const stat: string
    const fcstLenHrs: int
    const fcstVar: string
    const levelOrAccum: Option<string>
    var inclEnsMeans: Option<bool>
    var threshold: string

    function Values(): Args
      reads this
    {
      Args(host, outputDir, modelNames, stat, inclEnsMeans, fcstLenHrs, fcstVar, levelOrAccum, threshold)
    }

    constructor (a: Args)
      ensures Values() == a
    {
      host, outputDir, modelNames, stat := a.host, a.outputDir, a.modelNames, a.stat;
      inclEnsMeans, fcstLenHrs, fcstVar := a.inclEnsMeans, a.fcstLenHrs, a.fcstVar;
      levelOrAccum, threshold := a.levelOrAccum, a.threshold;
    }
  }

  /** What argparse's choices guarantee: a known statistic and variable,
      and models of the database. */
  predicate ArgsAccepted(st: StaticVals, db: ModelsDb, a: Args)
  {
    a.stat in st.statLongNames && a.stat in st.statNeedThresh
    && a.fcstVar in st.varLongNames && a.fcstVar in st.levelsByVar && a.fcstVar in st.threshesByVar
    && forall m :: m in a.modelNames ==> m in db.models
  }

  /** A level was given and is valid for the variable. */
  predicate LevelAccepted(st: StaticVals, a: Args)
    requires a.fcstVar in st.levelsByVar
  {
    a.levelOrAccum.Some? && a.levelOrAccum.value in st.levelsByVar[a.fcstVar]
  }

  function ThreshAfter(st: StaticVals, db: ModelsDb, a: Args): Result<string, Failure>
    requires ArgsAccepted(st, db, a)
  {
    ThreshStage(st.statNeedThresh[a.stat], st.threshesByVar[a.fcstVar], a.threshold)
  }

  function EnsMemsOf(db: ModelsDb, names: seq<string>): (r: seq<int>)
    requires forall m :: m in names ==> m in db.models
    ensures |r| == |names| && forall k :: 0 <= k < |names| ==> r[k] == db.models[names[k]].numEnsMems
  {
    seq(|names|, k requires 0 <= k < |names| => db.models[names[k]].numEnsMems)
  }

  function DbNamesOf(db: ModelsDb, names: seq<string>): (r: seq<string>)
    requires forall m :: m in names ==> m in db.models
    ensures |r| == |names| && forall k :: 0 <= k < |names| ==> r[k] == db.models[names[k]].nameInDb
  {
    seq(|names|, k requires 0 <= k < |names| => db.models[names[k]].nameInDb)
  }

  /** Every request passing every check: a configured host, a valid level,
      a threshold the statistic accepts and whose operator can be read,
      and positive ensemble sizes. */
  predicate Accepted(st: StaticVals, db: ModelsDb, hosts: map<string, SinglePlot.Host>, a: Args)
    requires ArgsAccepted(st, db, a)
  {
    a.host in hosts && LevelAccepted(st, a) && ThreshAfter(st, db, a).Ok?
    && ParseThreshToken(ThreshAfter(st, db, a).value).Ok?
    && forall k :: 0 <= k < |a.modelNames| ==> EnsMemsOf(db, a.modelNames)[k] > 0
  }

  /** The command line after generate_metviewer_xml: incl_ens_means is
      made explicit once the host is found, and the threshold a statistic
      does not need is dropped once the level is found valid. */
  function StateAfter(st: StaticVals, db: ModelsDb, hosts: map<string, SinglePlot.Host>, a: Args): Args
    requires ArgsAccepted(st, db, a)
  {
    if a.host !in hosts then a
    else
      var a1 := a.(inclEnsMeans := Some(InclEnsMeans(a.inclEnsMeans, a.stat)));
      if !LevelAccepted(st, a) then a1
      else a1.(threshold := EffectiveThreshold(st.statNeedThresh[a.stat], a.threshold))
  }

  // ------------------------------------------------------- the template

  /** The values passed to the xml template (the colour codes and the
      initialisation times are not part of this model). */
  datatype XmlVars = XmlVars(
    host: string, database: string, outputDir: string, numModels: nat,
    modelDbNames: seq<string>, modelNamesUc: seq<string>, fcstVarUc: string, fcstVarDbName: string,
    levelMv: string, levelNo0pad: string, xmlThreshold: string, obsType: string,
    statUc: string, statLc: string, statMv: string,
    lineTypes: seq<string>, lineWidths: seq<nat>, numSeries: nat, orderSeries: seq<nat>,
    numEnsMems: seq<nat>, threshCompOper: string, threshValue: string, threshUnits: string,
    fcstLenHrs: int, inclEnsMeans: bool, jobTitle: string, plotTitle: string)

  /** What generate_metviewer_xml returns (the batch script and the xml
      path), with the template and the values it renders into the xml. */
  datatype Output = Output(batchScript: string, outputXmlPath: string, templateFn: string, vars: XmlVars)

  /** The model values: the selected models in the order given, with their
      database names and positive ensemble sizes. */
  predicate ModelVarsMatch(db: ModelsDb, a: Args, v: XmlVars)
    requires forall m :: m in a.modelNames ==> m in db.models
    requires a.inclEnsMeans.Some?
  {
    v.numModels == |a.modelNames| && v.modelDbNames == DbNamesOf(db, a.modelNames)
    && |v.modelNamesUc| == |a.modelNames|
    && (forall k :: 0 <= k < |a.modelNames| ==> v.modelNamesUc[k] == Upper(a.modelNames[k]))
    && |v.numEnsMems| == |a.modelNames|
    && (forall k :: 0 <= k < |a.modelNames| ==> v.numEnsMems[k] == db.models[a.modelNames[k]].numEnsMems > 0)
    && v.inclEnsMeans == a.inclEnsMeans.value
  }

  /** The series values: one per ensemble member plus the means, numbered
      from 1, with a line type for each and a width for each member. */
  predicate SeriesVarsMatch(v: XmlVars)
  {
    v.numSeries == NumSeries(v.numEnsMems, v.inclEnsMeans)
    && v.orderSeries == OrderSeries(v.numSeries)
    && v.lineTypes == LineTypesOf(v.numEnsMems, v.inclEnsMeans) && |v.lineTypes| == v.numSeries
    && v.lineWidths == LineWidths(v.numEnsMems)
  }

  /** The names the database and METviewer use, and the titles. */
  predicate NameVarsMatch(st: StaticVals, db: ModelsDb, a: Args, lvl: LevelParse, t: ThreshParse, v: XmlVars)
    requires ArgsAccepted(st, db, a) && a.levelOrAccum.Some?
  {
    var loa := a.levelOrAccum.value;
    v.fcstVarUc == Upper(a.fcstVar) && v.fcstVarDbName == VarNameInDb(a.fcstVar, loa, a.stat, t)
    && v.levelMv == lvl.nameMv && v.levelNo0pad == lvl.no0pad
    && v.xmlThreshold == t.xml && v.obsType == ObsTypeOf(a.fcstVar, VarLevelStr(a.fcstVar, loa))
    && v.statUc == Upper(a.stat) && v.statLc == Lower(a.stat) && v.statMv == MetricNameMv(a.stat)
    && v.threshCompOper == t.compOper && v.threshValue == t.value && v.threshUnits == t.units
    && v.jobTitle == JobTitleOf(a.stat, a.fcstVar, loa, t, a.modelNames)
    && v.plotTitle == TitleForPlot(st.statLongNames[a.stat], loa, st.varLongNames[a.fcstVar], t)
  }

  /** The template values of a successful run, from the settled command line. */
  predicate VarsMatch(st: StaticVals, db: ModelsDb, a: Args, v: XmlVars)
    requires ArgsAccepted(st, db, a) && a.levelOrAccum.Some? && a.inclEnsMeans.Some?
  {
    ParseThreshToken(a.threshold).Ok?
    && v.host == a.host && v.database == db.dbName && v.outputDir == a.outputDir
    && v.fcstLenHrs == a.fcstLenHrs
    && ModelVarsMatch(db, a, v) && SeriesVarsMatch(v)
    && NameVarsMatch(st, db, a, ParseLevelToken(a.levelOrAccum.value), ParseThreshToken(a.threshold).value, v)
  }

  /** The template values from the settled command line and the values
      computed along the way. */
  function MakeVars(st: StaticVals, db: ModelsDb, a: Args, ens: seq<nat>, lvl: LevelParse, t: ThreshParse,
                    lineTypes: seq<string>): (v: XmlVars)
    requires ArgsAccepted(st, db, a) && a.levelOrAccum.Some? && a.inclEnsMeans.Some?
    ensures NameVarsMatch(st, db, a, lvl, t, v)
  {
    var loa := a.levelOrAccum.value;
    var numSeries := NumSeries(ens, a.inclEnsMeans.value);
    XmlVars(
      a.host, db.dbName, a.outputDir, |a.modelNames|,
      DbNamesOf(db, a.modelNames), MapSeq(a.modelNames, Upper),
      Upper(a.fcstVar), VarNameInDb(a.fcstVar, loa, a.stat, t),
      lvl.nameMv, lvl.no0pad, t.xml, ObsTypeOf(a.fcstVar, VarLevelStr(a.fcstVar, loa)),
      Upper(a.stat), Lower(a.stat), MetricNameMv(a.stat),
      lineTypes, LineWidths(ens), numSeries, OrderSeries(numSeries),
      ens, t.compOper, t.value, t.units, a.fcstLenHrs, a.inclEnsMeans.value,
      JobTitleOf(a.stat, a.fcstVar, loa, t, a.modelNames),
      TitleForPlot(st.statLongNames[a.stat], loa, st.varLongNames[a.fcstVar], t))
  }

  // ------------------------------------------------------------- the run

  /** The loop over the selected models that stops at the first one whose
      ensemble size is not positive. */
  method CheckEnsSizes(ens: seq<int>) returns (ok: bool)
    ensures ok <==> forall k :: 0 <= k < |ens| ==> ens[k] > 0
  {
    for i := 0 to |ens|
      invariant forall k :: 0 <= k < i ==> ens[k] > 0
    {
      if ens[i] <= 0 {
        return false;
      }
    }
    return true;
  }

  /**
   * The level and threshold stage: incl_ens_means is made explicit, the
   * level is checked against the variable and parsed, the threshold goes
   * through its stage (an unneeded one dropped) and is parsed.
   */
  method SettleLevelAndThreshold(cla: CommandLine, st: StaticVals, db: ModelsDb)
      returns (r: Result<(LevelParse, ThreshParse), Failure>)
    requires ArgsAccepted(st, db, cla.Values())
    modifies cla
    ensures cla.Values() == old(cla.Values()).(
              inclEnsMeans := Some(InclEnsMeans(old(cla.inclEnsMeans), cla.stat)),
              threshold := if LevelAccepted(st, old(cla.Values()))
                           then EffectiveThreshold(st.statNeedThresh[cla.stat], old(cla.threshold))
                           else old(cla.threshold))
    ensures r.Ok? <==> LevelAccepted(st, old(cla.Values())) && ThreshAfter(st, db, old(cla.Values())).Ok?
                       && ParseThreshToken(cla.threshold).Ok?
    ensures !LevelAccepted(st, old(cla.Values())) ==> r == Err(UndefinedName("error_out"))
    ensures LevelAccepted(st, old(cla.Values())) && ThreshAfter(st, db, old(cla.Values())).Err? ==>
              r == Err(UndefinedName("error_out"))
    ensures (LevelAccepted(st, old(cla.Values())) && ThreshAfter(st, db, old(cla.Values())).Ok?
             && ParseThreshToken(cla.threshold).Err?) ==> r == Err(ParseThreshToken(cla.threshold).error)
    ensures r.Ok? ==> r.value == (ParseLevelToken(cla.levelOrAccum.value), ParseThreshToken(cla.threshold).value)
  {
    var a := cla.Values();
    cla.inclEnsMeans := Some(InclEnsMeans(cla.inclEnsMeans, cla.stat));
    if cla.levelOrAccum.None? || cla.levelOrAccum.value !in st.levelsByVar[cla.fcstVar] {
      return Err(UndefinedName("error_out"));
    }
    var lvl := ParseLevelToken(cla.levelOrAccum.value);
    var stage := ThreshStage(st.statNeedThresh[cla.stat], st.threshesByVar[cla.fcstVar], cla.threshold);
    cla.threshold := EffectiveThreshold(st.statNeedThresh[cla.stat], cla.threshold);
    if stage.Err? {
      return Err(stage.error);
    }
    var t := ParseThreshToken(cla.threshold);
    if t.Err? {
      return Err(t.error);
    }
    return Ok((lvl, t.value));
  }

  /**
   * The template stage: the ensemble sizes are checked, then the line
   * types, names and titles are computed; one pass of the line-type loop
   * per selected model.
   */
  method FillTemplate(cla: CommandLine, st: StaticVals, db: ModelsDb, batchScript: string,
                      lvl: LevelParse, t: ThreshParse) returns (r: Result<Output, Failure>)
    requires ArgsAccepted(st, db, cla.Values()) && LevelAccepted(st, cla.Values())
    requires cla.inclEnsMeans.Some?
    requires lvl == ParseLevelToken(cla.levelOrAccum.value) && ParseThreshToken(cla.threshold) == Ok(t)
    ensures r.Ok? <==> forall k :: 0 <= k < |cla.modelNames| ==> EnsMemsOf(db, cla.modelNames)[k] > 0
    ensures r.Err? ==> r == Err(UndefinedName("error_out"))
    ensures r.Ok? ==> VarsMatch(st, db, cla.Values(), r.value.vars)
    ensures r.Ok? ==> r.value.batchScript == batchScript && r.value.templateFn == TemplateFn(cla.stat)
    ensures r.Ok? ==>
              r.value.outputXmlPath == PathJoin(PathJoin(cla.outputDir, "plots"),
                XmlFileName(cla.stat, cla.fcstVar, cla.levelOrAccum.value, cla.threshold, cla.modelNames))
  {
    var a := cla.Values();
    var ensMems := EnsMemsOf(db, cla.modelNames);
    var ok := CheckEnsSizes(ensMems);
    if !ok {
      return Err(UndefinedName("error_out"));
    }
    var ens := SinglePlot.AsNats(ensMems);
    var lineTypes := BuildLineTypes(ens, cla.inclEnsMeans.value);
    var vars := MakeVars(st, db, a, ens, lvl, t, lineTypes);
    assert ModelVarsMatch(db, a, vars);
    assert SeriesVarsMatch(vars);
    var xmlFn := XmlFileName(cla.stat, cla.fcstVar, cla.levelOrAccum.value, cla.threshold, cla.modelNames);
    r := Ok(Output(batchScript, PathJoin(PathJoin(cla.outputDir, "plots"), xmlFn), TemplateFn(cla.stat), vars));
  }

  /**
   * generate_metviewer_xml: the host, then the level and threshold
   * stage, then the template stage; the first failure stops it, with the
   * command line rewritten as far as it got.  A statistic that needs no
   * threshold is plotted without one.
   */
  method GenerateMetviewerXml(cla: CommandLine, st: StaticVals, db: ModelsDb,
                              hosts: map<string, SinglePlot.Host>) returns (r: Result<Output, Failure>)
    requires ArgsAccepted(st, db, cla.Values())
    modifies cla
    ensures cla.Values() == StateAfter(st, db, hosts, old(cla.Values()))
    ensures r.Ok? <==> Accepted(st, db, hosts, old(cla.Values()))
    ensures cla.host !in hosts ==> r == Err(UndefinedName("error_out"))
    ensures r.Err? ==> r.error in {UndefinedName("error_out"), IndexOutOfRange("thresh_comp_oper"),
                                   UndefinedName("xml_threshold")}
    ensures r.Ok? ==> cla.inclEnsMeans.Some? && cla.levelOrAccum.Some? && VarsMatch(st, db, cla.Values(), r.value.vars)
    ensures r.Ok? ==> r.value.batchScript == hosts[cla.host].batchScript && r.value.templateFn == TemplateFn(cla.stat)
    ensures r.Ok? ==>
              r.value.outputXmlPath == PathJoin(PathJoin(cla.outputDir, "plots"),
                XmlFileName(cla.stat, cla.fcstVar, cla.levelOrAccum.value, cla.threshold, cla.modelNames))
    ensures r.Ok? && !st.statNeedThresh[cla.stat] ==>
              cla.threshold == "" && r.value.vars.xmlThreshold == "" && r.value.vars.threshCompOper == ""
  {
    if cla.host !in hosts {
      return Err(UndefinedName("error_out"));
    }
    var settled := SettleLevelAndThreshold(cla, st, db);
    if settled.Err? {
      return Err(settled.error);
    }
    var (lvl, t) := settled.value;
    if !st.statNeedThresh[cla.stat] {
      NoThresholdParsed();
    }
    r := FillTemplate(cla, st, db, hosts[cla.host].batchScript, lvl, t);
  }

  /**
   * plot_vx_metviewer: the static values and the database information are
   * read, the command line parsed and the xml generated; the batch script
   * and the xml path are returned.  Running the batch script on the xml is
   * not part of this model.
   */
  method PlotVxMetviewer(vars: seq<(string, FcstVarInfo)>, stats: seq<(string, StatInfo)>, db: ModelsDb,
                         hosts: map<string, SinglePlot.Host>, a: Args) returns (r: Result<(string, string), Failure>)
    requires NoDup(Keys(vars)) && NoDup(Keys(stats))
    requires a.stat in Keys(stats) && a.fcstVar in Keys(vars)
    requires forall m :: m in a.modelNames ==> m in db.models
    ensures a.host !in hosts ==> r == Err(UndefinedName("error_out"))
    ensures r.Ok? ==> a.host in hosts && r.value.0 == hosts[a.host].batchScript
    ensures exists st :: StaticFrom(vars, stats, st) && ArgsAccepted(st, db, a)
                         && (r.Ok? <==> Accepted(st, db, hosts, a))
  {
    var st := GetStaticVals(vars, stats);
    var i :| 0 <= i < |Keys(stats)| && Keys(stats)[i] == a.stat;
    var j :| 0 <= j < |Keys(vars)| && Keys(vars)[j] == a.fcstVar;
    assert a.stat in st.statLongNames && a.fcstVar in st.varLongNames;
    var cla := new CommandLine(a);
    var generated := GenerateMetviewerXml(cla, st, db, hosts);
    if generated.Err? {
      return Err(generated.error);
    }
    r := Ok((generated.value.batchScript, generated.value.outputXmlPath));
  }

  /** The empty threshold parses to no threshold. */
  lemma NoThresholdParsed()
    ensures ParseThreshToken("") == Ok(NoThreshParse)
  {
    assert FindThresh("", true).None?;
  }
}
