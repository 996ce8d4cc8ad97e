/**
 * generate_metviewer_xml of make_single_mv_vx_plot.py: the checks on the
 * command line against the host, database and plotting configurations,
 * the in-place changes it makes to the parsed command line (the models
 * reordered by long name with their colours, the ensemble-mean flag made
 * explicit, an unneeded threshold dropped), and the values it hands to the
 * xml template.
 */
module SinglePlot {
  import opened Wrappers
  import opened PyStr
  import opened PySeq
  import opened PlotParams
  import opened PlotModels

  /** A verification metric of the plotting configuration. */
  datatype MetricInfo = MetricInfo(longName: string, needsThresh: bool)

  /** The valid plotting parameters: the master list of levels with their
      names in the database, the fields, the metrics and the names of the
      colours offered for the models. */
  datatype PlotConfig = PlotConfig(levelsInDb: map<string, string>,
                                   fields: map<string, FieldInfo>,
                                   metrics: map<string, MetricInfo>,
                                   colors: seq<string>)

  /** The entry of the host configuration the script uses. */
  datatype Host = Host(batchScript: string)

  /** The parsed command line, as values. */
  datatype Args = Args(host: string, databaseName: string, outputDir: string,
                       vxMetric: string, fcstField: string, levelOrAccum: Option<string>,
                       fcstLenHrs: int, modelNamesShort: seq<string>, modelColors: seq<string>,
                       inclEnsMeans: Option<bool>, threshold: string)

  /** The argparse namespace: the options the xml generation rewrites are
      variables, the rest constants. */
  class CommandLine {
    const host: string
    const databaseName: string
    const outputDir: string
    const vxMetric: string
    const fcstField: string
    const levelOrAccum: Option<string>
    const fcstLenHrs: int
    var modelNamesShort: seq<string>
    var modelColors: seq<string>
    var inclEnsMeans: Option<bool>
    var threshold: string

    function Values(): Args
      reads this
    {
      Args(host, databaseName, outputDir, vxMetric, fcstField, levelOrAccum, fcstLenHrs,
           modelNamesShort, modelColors, inclEnsMeans, threshold)
    }

    constructor (a: Args)
      ensures Values() == a
    {
      host, databaseName, outputDir := a.host, a.databaseName, a.outputDir;
      vxMetric, fcstField, levelOrAccum := a.vxMetric, a.fcstField, a.levelOrAccum;
      fcstLenHrs := a.fcstLenHrs;
      modelNamesShort, modelColors := a.modelNamesShort, a.modelColors;
      inclEnsMeans, threshold := a.inclEnsMeans, a.threshold;
    }
  }

  /** What argparse's choices guarantee: a known metric and field, a level
      of the master list when one is given, and listed colours. */
  predicate ArgsAccepted(cfg: PlotConfig, a: Args)
  {
    a.vxMetric in cfg.metrics && a.fcstField in cfg.fields
    && (a.levelOrAccum.Some? ==> a.levelOrAccum.value in cfg.levelsInDb)
    && forall c :: c in a.modelColors ==> c in cfg.colors
  }

  /** The values passed to the xml template (the colour codes, the
      initialisation times and the caption are not part of this model). */
  datatype TemplateVars = TemplateVars(
    host: string, databaseName: string, outputDir: string,
    numModels: nat, numEnsMems: seq<nat>, modelNamesInDb: seq<string>,
    modelNamesShort: seq<string>, modelColors: seq<string>,
    fieldUc: string, fieldNameInDb: string, levelInDb: string, levelNo0pad: string,
    threshInDb: string, obsType: string, metricUc: string, metricLc: string, metricMv: string,
    fcstLenHrs: int, jobTitle: string, plotTitle: string, inclEnsMeans: bool,
    numSeries: nat, orderSeries: seq<nat>, xtickLabelFreq: nat,
    lineTypes: seq<string>, lineWidths: seq<nat>)

  /** What generate_metviewer_xml returns, with the template values it
      renders into the xml. */
  datatype Generated = Generated(batchScript: string, outputXmlPath: string,
                                 templateFn: string, vars: TemplateVars)

  // ------------------------------------------------------------ stages

  predicate Configured(hosts: map<string, Host>, dbs: map<string, Database>, a: Args)
  {
    a.host in hosts && a.databaseName in dbs
  }

  /** The host and database are configured and the models and threshold
      pass the database checks. */
  predicate ModelsOk(hosts: map<string, Host>, dbs: map<string, Database>, a: Args)
  {
    Configured(hosts, dbs, a) && CheckModels(dbs[a.databaseName], a.modelNamesShort, a.threshold).None?
  }

  function NewShorts(dbs: map<string, Database>, a: Args): seq<string>
    requires a.databaseName in dbs
  {
    ReorderedShorts(SortedModels(dbs[a.databaseName].models), a.modelNamesShort)
  }

  function NewEnsMems(dbs: map<string, Database>, a: Args): seq<int>
    requires a.databaseName in dbs
  {
    ReorderedEnsMems(SortedModels(dbs[a.databaseName].models), a.modelNamesShort)
  }

  function NewColors(dbs: map<string, Database>, a: Args): Result<seq<string>, Failure>
    requires a.databaseName in dbs
  {
    RemapColors(a.modelNamesShort, NewShorts(dbs, a), a.modelColors)
  }

  /** The models can be plotted: colours found for all, every ensemble
      size positive, and no more models than colours on offer. */
  predicate ModelsPlottable(cfg: PlotConfig, hosts: map<string, Host>, dbs: map<string, Database>, a: Args)
  {
    ModelsOk(hosts, dbs, a) && NewColors(dbs, a).Ok?
    && CheckEnsMems(NewShorts(dbs, a), NewEnsMems(dbs, a)).None?
    && |a.modelNamesShort| <= |cfg.colors|
  }

  /** The level handling; without a level, the membership test of None
      fails. */
  function LevelOf(cfg: PlotConfig, a: Args): Result<LevelInfo, Failure>
    requires a.fcstField in cfg.fields
  {
    match a.levelOrAccum
    case None => Err(LevelNotValidForField(a.fcstField, "None"))
    case Some(loa) => ParseLevel(a.fcstField, loa, cfg.fields[a.fcstField].validLevels)
  }

  function ThreshUsed(cfg: PlotConfig, a: Args): string
    requires a.vxMetric in cfg.metrics
  {
    EffectiveThreshold(cfg.metrics[a.vxMetric].needsThresh, a.threshold)
  }

  /** Every check up to and including the threshold's units passes. */
  predicate ThreshOk(cfg: PlotConfig, hosts: map<string, Host>, dbs: map<string, Database>, a: Args)
    requires ArgsAccepted(cfg, a)
  {
    ModelsPlottable(cfg, hosts, dbs, a) && LevelOf(cfg, a).Ok?
    && GetThreshInfo(ThreshUsed(cfg, a)).Ok?
    && (ThreshUsed(cfg, a) == "" || GetThreshInfo(ThreshUsed(cfg, a)).value.units in cfg.fields[a.fcstField].validUnits)
  }

  /** The rewrites leave the host, database, output directory, metric,
      field, level and forecast length as given. */
  predicate KeysKept(a: Args, b: Args)
  {
    b.host == a.host && b.databaseName == a.databaseName && b.outputDir == a.outputDir
    && b.vxMetric == a.vxMetric && b.fcstField == a.fcstField
    && b.levelOrAccum == a.levelOrAccum && b.fcstLenHrs == a.fcstLenHrs
  }

  /** The command line after generate_metviewer_xml: each rewrite happens
      once its stage is reached, also when a later check fails. */
  function StateAfter(cfg: PlotConfig, hosts: map<string, Host>, dbs: map<string, Database>, a: Args): (r: Args)
    requires ArgsAccepted(cfg, a)
    ensures KeysKept(a, r)
  {
    if !ModelsOk(hosts, dbs, a) then a
    else
      var a1 := a.(modelNamesShort := NewShorts(dbs, a));
      if NewColors(dbs, a).Err? then a1
      else
        var a2 := a1.(modelColors := NewColors(dbs, a).value);
        if !ModelsPlottable(cfg, hosts, dbs, a) then a2
        else
          var a3 := a2.(inclEnsMeans := Some(InclEnsMeans(a.inclEnsMeans, a.vxMetric)));
          if LevelOf(cfg, a).Err? then a3
          else a3.(threshold := ThreshUsed(cfg, a))
  }

  /** The model values of the template: the models in their new order
      with their colours, long names and ensemble sizes. */
  predicate ModelVarsMatch(after: Args, names: seq<string>, ens: seq<int>, v: TemplateVars)
    requires after.inclEnsMeans.Some?
  {
    v.modelNamesShort == after.modelNamesShort && v.modelColors == after.modelColors
    && v.modelNamesInDb == names && v.numModels == |after.modelNamesShort|
    && |v.numEnsMems| == |ens| && (forall i :: 0 <= i < |ens| ==> v.numEnsMems[i] == ens[i] > 0)
    && v.inclEnsMeans == after.inclEnsMeans.value
  }

  /** The series values: one per ensemble member plus the means, numbered
      from 1, with a line type for each and a width for each member. */
  predicate SeriesVarsMatch(v: TemplateVars)
  {
    v.numSeries == NumSeries(v.numEnsMems, v.inclEnsMeans)
    && v.orderSeries == OrderSeries(v.numSeries)
    && v.lineTypes == LineTypesOf(v.numEnsMems, v.inclEnsMeans) && |v.lineTypes| == v.numSeries
    && v.lineWidths == LineWidths(v.numEnsMems)
  }

  /** The names the database and METviewer use, and the titles. */
  predicate NameVarsMatch(metricLong: string, fieldLong: string, levelInDb: string, a: Args,
                          loa: string, lvl: LevelInfo, t: ThreshInfo, shorts: seq<string>, v: TemplateVars)
  {
    v.fieldUc == Upper(a.fcstField)
    && v.fieldNameInDb == FieldNameInDb(a.fcstField, loa, a.vxMetric, t)
    && v.levelInDb == levelInDb && v.levelNo0pad == lvl.no0pad
    && v.threshInDb == t.inDb
    && v.obsType == ObsType(a.fcstField, loa)
    && v.metricUc == Upper(a.vxMetric) && v.metricLc == Lower(a.vxMetric)
    && v.metricMv == MetricNameMv(a.vxMetric)
    && v.jobTitle == JobTitle(a.vxMetric, a.fcstField, lvl, t, shorts)
    && v.plotTitle == PlotTitle(metricLong, lvl, fieldLong, t)
    && Some(v.xtickLabelFreq) == XtickLabelFreq(a.vxMetric, loa, a.fcstLenHrs)
  }

  /** The template values of a successful run. */
  predicate VarsMatch(cfg: PlotConfig, a: Args, after: Args, names: seq<string>,
                      ens: seq<int>, v: TemplateVars)
    requires ArgsAccepted(cfg, a) && LevelOf(cfg, a).Ok?
  {
    var loa := a.levelOrAccum.value;
    after.inclEnsMeans.Some? && ModelVarsMatch(after, names, ens, v) && SeriesVarsMatch(v)
    && GetThreshInfo(after.threshold).Ok?
    && NameVarsMatch(cfg.metrics[a.vxMetric].longName, cfg.fields[a.fcstField].longName,
                     cfg.levelsInDb[loa], a, loa, LevelOf(cfg, a).value,
                     GetThreshInfo(after.threshold).value, after.modelNamesShort, v)
  }

  // ------------------------------------------------------------ the run

  /** The command line after the model stage. */
  function ModelsState(hosts: map<string, Host>, dbs: map<string, Database>, a: Args): (r: Args)
    ensures KeysKept(a, r)
  {
    if !ModelsOk(hosts, dbs, a) then a
    else
      var a1 := a.(modelNamesShort := NewShorts(dbs, a));
      if NewColors(dbs, a).Err? then a1 else a1.(modelColors := NewColors(dbs, a).value)
  }

  /** The command line after the reordering of a checked model list. */
  function ReorderState(db: Database, a: Args): Args
  {
    var shorts := ReorderedShorts(SortedModels(db.models), a.modelNamesShort);
    var colors := RemapColors(a.modelNamesShort, shorts, a.modelColors);
    if colors.Err? then a.(modelNamesShort := shorts)
    else a.(modelNamesShort := shorts, modelColors := colors.value)
  }

  /**
   * Lines 616-668: the models are put in long-name order (line 631) and
   * their colours follow (line 634), after which the ensemble sizes and
   * the number of colours on offer are checked.  On success it returns the
   * ensemble sizes in the new order.
   */
  method ReorderModels(cla: CommandLine, cfg: PlotConfig, db: Database) returns (r: Result<seq<int>, Failure>)
    modifies cla
    ensures cla.Values() == ReorderState(db, old(cla.Values()))
    ensures var shorts := ReorderedShorts(SortedModels(db.models), old(cla.modelNamesShort));
            var ens := ReorderedEnsMems(SortedModels(db.models), old(cla.modelNamesShort));
            r.Ok? <==> RemapColors(old(cla.modelNamesShort), shorts, old(cla.modelColors)).Ok?
                       && CheckEnsMems(shorts, ens).None? && |old(cla.modelNamesShort)| <= |cfg.colors|
    ensures r.Ok? ==> r.value == ReorderedEnsMems(SortedModels(db.models), old(cla.modelNamesShort))
    ensures r.Ok? ==> forall i :: 0 <= i < |r.value| ==> r.value[i] > 0
  {
    var sorted := SortedModels(db.models);
    var origShorts := cla.modelNamesShort;
    cla.modelNamesShort := ReorderedShorts(sorted, origShorts);
    var colors := RemapColors(origShorts, cla.modelNamesShort, cla.modelColors);
    if colors.Err? {
      return Err(colors.error);
    }
    cla.modelColors := colors.value;
    var ensMems := ReorderedEnsMems(sorted, origShorts);
    var ensCheck := CheckEnsMems(cla.modelNamesShort, ensMems);
    if ensCheck.Some? {
      return Err(ensCheck.value);
    }
    if |origShorts| > |cfg.colors| {
      return Err(TooManyModels(|origShorts|, |cfg.colors|));
    }
    return Ok(ensMems);
  }

  /** On a database listing each name once, a reordering that passed its
      checks rearranged the models and kept each one's colour. */
  lemma ReorderKeepsPairs(db: Database, a: Args)
    requires WellFormed(db.models) && CheckModels(db, a.modelNamesShort, a.threshold).None?
    requires RemapColors(a.modelNamesShort, ReorderedShorts(SortedModels(db.models), a.modelNamesShort),
                         a.modelColors).Ok?
    ensures var after := ReorderState(db, a);
            |a.modelColors| >= |a.modelNamesShort|
            && multiset(after.modelNamesShort) == multiset(a.modelNamesShort)
            && multiset(Pairs(after.modelNamesShort, after.modelColors))
               == multiset(Pairs(a.modelNamesShort, a.modelColors))
  {
    if |a.modelColors| < |a.modelNamesShort| {
      TooFewColors(db, a.modelNamesShort, a.modelColors);
    }
    ReorderIsPermutation(db, a.modelNamesShort);
    ColorsFollowModels(db, a.modelNamesShort, a.modelColors);
  }

  /**
   * The model stage: the host, the database, the models and threshold
   * against the database, then the reordering.
   */
  method PrepareModels(cla: CommandLine, cfg: PlotConfig, hosts: map<string, Host>,
                       dbs: map<string, Database>) returns (r: Result<seq<int>, Failure>)
    modifies cla
    ensures cla.Values() == ModelsState(hosts, dbs, old(cla.Values()))
    ensures r.Ok? <==> ModelsPlottable(cfg, hosts, dbs, old(cla.Values()))
    ensures cla.host !in hosts ==> r == Err(HostNotConfigured(cla.host))
    ensures cla.host in hosts && cla.databaseName !in dbs ==> r == Err(DatabaseNotConfigured(cla.databaseName))
    ensures Configured(hosts, dbs, old(cla.Values())) && !ModelsOk(hosts, dbs, old(cla.Values())) ==>
              r == Err(CheckModels(dbs[cla.databaseName], old(cla.modelNamesShort), old(cla.threshold)).value)
    ensures r.Ok? ==> r.value == NewEnsMems(dbs, old(cla.Values()))
                      && forall i :: 0 <= i < |r.value| ==> r.value[i] > 0
    ensures r.Ok? && WellFormed(dbs[cla.databaseName].models) ==>
              |old(cla.modelColors)| >= |old(cla.modelNamesShort)|
              && multiset(cla.modelNamesShort) == multiset(old(cla.modelNamesShort))
              && multiset(Pairs(cla.modelNamesShort, cla.modelColors))
                 == multiset(Pairs(old(cla.modelNamesShort), old(cla.modelColors)))
  {
    if cla.host !in hosts {
      return Err(HostNotConfigured(cla.host));
    }
    if cla.databaseName !in dbs {
      return Err(DatabaseNotConfigured(cla.databaseName));
    }
    var db := dbs[cla.databaseName];
    var check := CheckModels(db, cla.modelNamesShort, cla.threshold);
    if check.Some? {
      return Err(check.value);
    }
    var a := cla.Values();
    r := ReorderModels(cla, cfg, db);
    if r.Ok? && WellFormed(db.models) {
      ReorderKeepsPairs(db, a);
    }
  }

  /** The outcome of the level and threshold stage: the level error
      comes first, then the threshold's own error, then its units. */
  function Settled(cfg: PlotConfig, a: Args): (r: Result<(LevelInfo, ThreshInfo), Failure>)
    requires ArgsAccepted(cfg, a)
    ensures r.Ok? <==> LevelOf(cfg, a).Ok? && GetThreshInfo(ThreshUsed(cfg, a)).Ok?
                       && (ThreshUsed(cfg, a) == "" ||
                           GetThreshInfo(ThreshUsed(cfg, a)).value.units in cfg.fields[a.fcstField].validUnits)
    ensures r.Ok? ==> r.value == (LevelOf(cfg, a).value, GetThreshInfo(ThreshUsed(cfg, a)).value)
    ensures LevelOf(cfg, a).Err? ==> r == Err(LevelOf(cfg, a).error)
    ensures LevelOf(cfg, a).Ok? && GetThreshInfo(ThreshUsed(cfg, a)).Err? ==>
              r == Err(GetThreshInfo(ThreshUsed(cfg, a)).error)
    ensures r.Err? && LevelOf(cfg, a).Ok? && GetThreshInfo(ThreshUsed(cfg, a)).Ok? ==>
              r == Err(ThreshUnitsNotValid(a.fcstField, GetThreshInfo(ThreshUsed(cfg, a)).value.units))
  {
    var level := LevelOf(cfg, a);
    if level.Err? then Err(level.error)
    else
      var threshold := ThreshUsed(cfg, a);
      var thresh := GetThreshInfo(threshold);
      if thresh.Err? then Err(thresh.error)
      else if threshold != "" && thresh.value.units !in cfg.fields[a.fcstField].validUnits then
        Err(ThreshUnitsNotValid(a.fcstField, thresh.value.units))
      else Ok((level.value, thresh.value))
  }

  /**
   * The level and threshold stage: incl_ens_means is made explicit, the
   * level is parsed, a threshold the metric does not need is dropped, and
   * the threshold is parsed and its units checked against the field.
   */
  method SettleLevelAndThreshold(cla: CommandLine, cfg: PlotConfig)
      returns (r: Result<(LevelInfo, ThreshInfo), Failure>)
    requires ArgsAccepted(cfg, cla.Values())
    modifies cla
    ensures cla.Values() == old(cla.Values()).(
              inclEnsMeans := Some(InclEnsMeans(old(cla.inclEnsMeans), cla.vxMetric)),
              threshold := if LevelOf(cfg, old(cla.Values())).Ok? then ThreshUsed(cfg, old(cla.Values()))
                           else old(cla.threshold))
    ensures r == Settled(cfg, old(cla.Values()))
  {
    var a := cla.Values();
    var inclEnsMeans := Some(InclEnsMeans(a.inclEnsMeans, a.vxMetric));
    var threshold := if LevelOf(cfg, a).Ok? then ThreshUsed(cfg, a) else a.threshold;
    cla.inclEnsMeans := inclEnsMeans;
    cla.threshold := threshold;
    assert cla.Values() == a.(inclEnsMeans := inclEnsMeans, threshold := threshold);
    r := Settled(cfg, a);
  }

  /** Positive ensemble sizes as naturals. */
  function AsNats(ens: seq<int>): (r: seq<nat>)
    requires forall i :: 0 <= i < |ens| ==> ens[i] > 0
    ensures |r| == |ens| && forall i :: 0 <= i < |ens| ==> r[i] == ens[i]
  {
    seq(|ens|, i requires 0 <= i < |ens| => ens[i])
  }

  /** The template values, from the settled command line and the values
      computed along the way. */
  function MakeVars(cfg: PlotConfig, a: Args, names: seq<string>, ens: seq<nat>, lvl: LevelInfo,
                    t: ThreshInfo, lineTypes: seq<string>, xtick: nat): (v: TemplateVars)
    requires ArgsAccepted(cfg, a) && a.levelOrAccum.Some? && a.inclEnsMeans.Some?
    requires Some(xtick) == XtickLabelFreq(a.vxMetric, a.levelOrAccum.value, a.fcstLenHrs)
    ensures NameVarsMatch(cfg.metrics[a.vxMetric].longName, cfg.fields[a.fcstField].longName,
                          cfg.levelsInDb[a.levelOrAccum.value], a, a.levelOrAccum.value, lvl, t,
                          a.modelNamesShort, v)
  {
    var loa := a.levelOrAccum.value;
    var numSeries := NumSeries(ens, a.inclEnsMeans.value);
    TemplateVars(
      a.host, a.databaseName, a.outputDir,
      |a.modelNamesShort|, ens, names, a.modelNamesShort, a.modelColors,
      Upper(a.fcstField), FieldNameInDb(a.fcstField, loa, a.vxMetric, t),
      cfg.levelsInDb[loa], lvl.no0pad, t.inDb, ObsType(a.fcstField, loa),
      Upper(a.vxMetric), Lower(a.vxMetric), MetricNameMv(a.vxMetric),
      a.fcstLenHrs,
      JobTitle(a.vxMetric, a.fcstField, lvl, t, a.modelNamesShort),
      PlotTitle(cfg.metrics[a.vxMetric].longName, lvl, cfg.fields[a.fcstField].longName, t),
      a.inclEnsMeans.value, numSeries, OrderSeries(numSeries), xtick, lineTypes, LineWidths(ens))
  }

  /**
   * The template stage: titles, names, series and line styles.  A metric
   * outside the known lists leaves xtick_label_freq unset, and building
   * the template values then stops with a NameError.
   */
  method FillTemplate(cla: CommandLine, cfg: PlotConfig, batchScript: string, names: seq<string>,
                      ensMems: seq<int>, lvl: LevelInfo, t: ThreshInfo) returns (r: Result<Generated, Failure>)
    requires ArgsAccepted(cfg, cla.Values()) && LevelOf(cfg, cla.Values()) == Ok(lvl)
    requires cla.inclEnsMeans.Some? && GetThreshInfo(cla.threshold) == Ok(t)
    requires forall i :: 0 <= i < |ensMems| ==> ensMems[i] > 0
    ensures r.Ok? <==> XtickLabelFreq(cla.vxMetric, cla.levelOrAccum.value, cla.fcstLenHrs).Some?
    ensures r.Err? ==> r == Err(UndefinedName("xtick_label_freq"))
    ensures r.Ok? ==> VarsMatch(cfg, cla.Values(), cla.Values(), names, ensMems, r.value.vars)
    ensures r.Ok? ==> r.value.batchScript == batchScript && r.value.templateFn == TemplateFn(cla.vxMetric)
    ensures r.Ok? ==>
              r.value.outputXmlPath == PathJoin(PathJoin(cla.outputDir, "plots"),
                OutputXmlFn(cla.vxMetric, cla.fcstField, lvl, cla.threshold, cla.modelNamesShort))
  {
    var a := cla.Values();
    var loa := cla.levelOrAccum.value;
    var incl := cla.inclEnsMeans.value;
    var ens := AsNats(ensMems);
    var lineTypes := BuildLineTypes(ens, incl);
    var xtick := XtickLabelFreq(cla.vxMetric, loa, cla.fcstLenHrs);
    if xtick.None? {
      return Err(UndefinedName("xtick_label_freq"));
    }
    var vars := MakeVars(cfg, a, names, ens, lvl, t, lineTypes, xtick.value);
    assert ModelVarsMatch(a, names, ensMems, vars);
    assert SeriesVarsMatch(vars);
    var xmlFn := OutputXmlFn(cla.vxMetric, cla.fcstField, lvl, cla.threshold, cla.modelNamesShort);
    r := Ok(Generated(batchScript, PathJoin(PathJoin(cla.outputDir, "plots"), xmlFn),
                      TemplateFn(cla.vxMetric), vars));
  }

  /**
   * generate_metviewer_xml: the model stage, the level and threshold
   * stage and the template stage in turn; the first failure stops it,
   * with the command line rewritten as far as it got.
   */
  method GenerateMetviewerXml(cla: CommandLine, cfg: PlotConfig, hosts: map<string, Host>,
                              dbs: map<string, Database>) returns (r: Result<Generated, Failure>)
    requires ArgsAccepted(cfg, cla.Values())
    modifies cla
    ensures cla.Values() == StateAfter(cfg, hosts, dbs, old(cla.Values()))
    ensures r.Ok? <==> ThreshOk(cfg, hosts, dbs, old(cla.Values()))
                       && XtickLabelFreq(cla.vxMetric, cla.levelOrAccum.value, cla.fcstLenHrs).Some?
    ensures cla.host !in hosts ==> r == Err(HostNotConfigured(cla.host))
    ensures cla.host in hosts && cla.databaseName !in dbs ==> r == Err(DatabaseNotConfigured(cla.databaseName))
    ensures Configured(hosts, dbs, old(cla.Values())) && !ModelsOk(hosts, dbs, old(cla.Values())) ==>
              r == Err(CheckModels(dbs[cla.databaseName], old(cla.modelNamesShort), old(cla.threshold)).value)
    ensures r.Ok? ==>
              VarsMatch(cfg, old(cla.Values()), cla.Values(),
                        LongNamesToPlot(SortedModels(dbs[cla.databaseName].models), old(cla.modelNamesShort)),
                        NewEnsMems(dbs, old(cla.Values())), r.value.vars)
    ensures r.Ok? ==> r.value.batchScript == hosts[cla.host].batchScript
    ensures r.Ok? ==> r.value.templateFn == TemplateFn(cla.vxMetric)
    ensures r.Ok? ==>
              r.value.outputXmlPath == PathJoin(PathJoin(cla.outputDir, "plots"),
                OutputXmlFn(cla.vxMetric, cla.fcstField, LevelOf(cfg, old(cla.Values())).value,
                            cla.threshold, cla.modelNamesShort))
    ensures r.Ok? && WellFormed(dbs[cla.databaseName].models) ==>
              |old(cla.modelColors)| >= |old(cla.modelNamesShort)|
              && multiset(cla.modelNamesShort) == multiset(old(cla.modelNamesShort))
              && multiset(Pairs(cla.modelNamesShort, cla.modelColors))
                 == multiset(Pairs(old(cla.modelNamesShort), old(cla.modelColors)))
  {
    var a := cla.Values();
    var models := PrepareModels(cla, cfg, hosts, dbs);
    if models.Err? {
      return Err(models.error);
    }
    var names := LongNamesToPlot(SortedModels(dbs[cla.databaseName].models), a.modelNamesShort);
    var a2 := cla.Values();
    assert a2 == ModelsState(hosts, dbs, a);
    var settled := SettleLevelAndThreshold(cla, cfg);
    if settled.Err? {
      return Err(settled.error);
    }
    var (lvl, t) := settled.value;
    r := FillTemplate(cla, cfg, hosts[cla.host].batchScript, names, models.value, lvl, t);
  }

  /**
   * make_single_mv_vx_plot: the load-time check of every field's levels
   * against the master list, then the xml generation; the xml path is
   * returned.  Running the METviewer batch script on it is not part of
   * this model.
   */
  method MakeSingleMvVxPlot(fieldList: seq<FieldInfo>, master: seq<string>, cfg: PlotConfig,
                            cla: CommandLine, hosts: map<string, Host>, dbs: map<string, Database>)
      returns (r: Result<string, Failure>)
    requires ArgsAccepted(cfg, cla.Values())
    modifies cla
    ensures FirstLevelNotInMaster(fieldList, master).Some? ==>
              r == Err(LevelNotInMaster(FirstLevelNotInMaster(fieldList, master).value.0,
                                        FirstLevelNotInMaster(fieldList, master).value.1))
              && cla.Values() == old(cla.Values())
    ensures FirstLevelNotInMaster(fieldList, master).None? ==>
              cla.Values() == StateAfter(cfg, hosts, dbs, old(cla.Values()))
    ensures r.Ok? <==> FirstLevelNotInMaster(fieldList, master).None?
                       && ThreshOk(cfg, hosts, dbs, old(cla.Values()))
                       && XtickLabelFreq(cla.vxMetric, cla.levelOrAccum.value, cla.fcstLenHrs).Some?
  {
    var levels := CheckFieldLevels(fieldList, master);
    if levels.Some? {
      return Err(levels.value);
    }
    var generated := GenerateMetviewerXml(cla, cfg, hosts, dbs);
    if generated.Err? {
      return Err(generated.error);
    }
    r := Ok(generated.value.outputXmlPath);
  }
}
