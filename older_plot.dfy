/**
 * generate_metviewer_xml and plot_vx_metviewer of the older single-plot
 * script ush/metviewer/plot_vx_metviewer.py.  It checks the models in the
 * order the command line gives them and does not reorder them: the colours
 * given with --colors reach the template as they are.  From the
 * ensemble-mean flag on, it does what make_single_mv_vx_plot.py does, so
 * those stages are the ones of SinglePlot.
 */
module OlderPlot {
  import opened Wrappers
  import opened PyStr
  import opened PySeq
  import opened PlotParams
  import opened PlotModels
  import opened SinglePlot

  // ------------------------------------------------------------ models

  /** The first model of the database with this short name. */
  function ModelOfShort(ms: seq<ModelInfo>, s: string): ModelInfo
  {
    if s in Shorts(ms) then ms[IndexOf(Shorts(ms), s)] else ModelInfo("", "", 0)
  }

  function EnsOfShort(ms: seq<ModelInfo>, s: string): int { ModelOfShort(ms, s).numEnsMems }

  /** The database names of the models to plot, in command-line order. */
  function NamesInDb(db: Database, shorts: seq<string>): (r: seq<string>)
    requires forall m :: m in shorts ==> m in Shorts(db.models)
    ensures |r| == |shorts|
    ensures forall k :: 0 <= k < |shorts| ==>
              exists j :: 0 <= j < |db.models| && db.models[j].shortName == shorts[k]
                          && db.models[j].longName == r[k]
  {
    var r := MapSeq(shorts, s => LongOfShort(db.models, s));
    assert forall k :: 0 <= k < |shorts| ==>
             var j := IndexOf(Shorts(db.models), shorts[k]);
             Shorts(db.models)[j] == db.models[j].shortName && db.models[j].longName == r[k];
    r
  }

  /** The ensemble size of each model to plot, in command-line order. */
  function EnsMemsByModel(db: Database, shorts: seq<string>): (r: seq<int>)
    requires forall m :: m in shorts ==> m in Shorts(db.models)
    ensures |r| == |shorts|
    ensures forall k :: 0 <= k < |shorts| ==>
              exists j :: 0 <= j < |db.models| && db.models[j].shortName == shorts[k]
                          && db.models[j].numEnsMems == r[k]
  {
    var r := MapSeq(shorts, s => EnsOfShort(db.models, s));
    assert forall k :: 0 <= k < |shorts| ==>
             var j := IndexOf(Shorts(db.models), shorts[k]);
             Shorts(db.models)[j] == db.models[j].shortName
             && ModelOfShort(db.models, shorts[k]) == db.models[j] && db.models[j].numEnsMems == r[k];
    r
  }

  /** On a database listing each short name once, a short name fixes the
      ensemble size. */
  lemma EnsOfShortUnique(ms: seq<ModelInfo>, j: nat)
    requires NoDup(Shorts(ms)) && j < |ms|
    ensures EnsOfShort(ms, ms[j].shortName) == ms[j].numEnsMems
  {
    assert Shorts(ms)[j] == ms[j].shortName;
    IndexOfNoDup(Shorts(ms), j);
  }

  /**
   * The model checks of lines 453-542, in their order: every model known to
   * the database, the threshold listed for it, every ensemble size positive
   * (the first offender in command-line order stops), no model named twice,
   * and no more models than colours on offer.
   */
  function CheckModelsInOrder(db: Database, shorts: seq<string>, threshold: string, numColors: nat)
      : (r: Option<Failure>)
    ensures r.None? <==>
      (forall m :: m in shorts ==> m in Shorts(db.models))
      && (threshold == "" || threshold in db.validThreshes)
      && (forall k :: 0 <= k < |shorts| ==> EnsMemsByModel(db, shorts)[k] > 0)
      && NoDup(shorts) && |shorts| <= numColors
    ensures r.Some? && r.value.UnknownModel? ==>
      r.value.short in shorts && r.value.short !in Shorts(db.models)
      && forall i :: 0 <= i < IndexOf(shorts, r.value.short) ==> shorts[i] in Shorts(db.models)
    ensures r.Some? && r.value.ThreshNotInDb? ==>
      (forall m :: m in shorts ==> m in Shorts(db.models))
      && r.value.thresh == threshold && threshold != "" && threshold !in db.validThreshes
    ensures r.Some? && r.value.NonPositiveEnsMems? ==>
      (forall m :: m in shorts ==> m in Shorts(db.models))
      && (threshold == "" || threshold in db.validThreshes)
      && r == CheckEnsMems(shorts, EnsMemsByModel(db, shorts))
    ensures r.Some? && r.value.DuplicateModels? ==>
      (forall m :: m in shorts ==> m in Shorts(db.models))
      && (forall k :: 0 <= k < |shorts| ==> EnsMemsByModel(db, shorts)[k] > 0)
      && r.value.duplicates != {} && forall m :: m in r.value.duplicates <==> multiset(shorts)[m] > 1
    ensures r.Some? && r.value.TooManyModels? ==>
      NoDup(shorts) && r.value == TooManyModels(|shorts|, numColors) && |shorts| > numColors
    ensures r.Some? ==>
      r.value.UnknownModel? || r.value.ThreshNotInDb? || r.value.NonPositiveEnsMems?
      || r.value.DuplicateModels? || r.value.TooManyModels?
  {
    match FirstNotIn(shorts, Shorts(db.models))
    case Some(m) => Some(UnknownModel(m))
    case None =>
      if threshold != "" && threshold !in db.validThreshes then Some(ThreshNotInDb(threshold))
      else
        var ens := EnsMemsByModel(db, shorts);
        match CheckEnsMems(shorts, ens)
        case Some(f) => Some(f)
        case None =>
          var dups := Duplicates(shorts);
          DuplicatesEmpty(shorts);
          if dups != {} then Some(DuplicateModels(dups))
          else if |shorts| > numColors then Some(TooManyModels(|shorts|, numColors))
          else None
  }

  /** On a database listing each short name once, the ensemble sizes in
      command-line order are those of the models' short names. */
  lemma OlderEnsByName(db: Database, shorts: seq<string>)
    requires NoDup(Shorts(db.models)) && forall m :: m in shorts ==> m in Shorts(db.models)
    ensures forall k :: 0 <= k < |shorts| ==>
              EnsMemsByModel(db, shorts)[k] == EnsOfShort(db.models, shorts[k])
  {
    var older := EnsMemsByModel(db, shorts);
    forall k | 0 <= k < |shorts| ensures older[k] == EnsOfShort(db.models, shorts[k]) {
      var j :| 0 <= j < |db.models| && db.models[j].shortName == shorts[k]
               && db.models[j].numEnsMems == older[k];
      EnsOfShortUnique(db.models, j);
    }
  }

  /** On a well-formed database, the ensemble sizes after the reordering of
      make_single_mv_vx_plot.py are those of the reordered short names. */
  lemma NewerEnsByName(db: Database, shorts: seq<string>)
    requires WellFormed(db.models) && forall m :: m in shorts ==> m in Shorts(db.models)
    ensures var re := ReorderedShorts(SortedModels(db.models), shorts);
            forall k :: 0 <= k < |shorts| ==>
              ReorderedEnsMems(SortedModels(db.models), shorts)[k] == EnsOfShort(db.models, re[k])
  {
    var newer := ReorderedEnsMems(SortedModels(db.models), shorts);
    var re := ReorderedShorts(SortedModels(db.models), shorts);
    EnsMemsFollowModels(db, shorts);
    forall k | 0 <= k < |shorts| ensures newer[k] == EnsOfShort(db.models, re[k]) {
      var j :| 0 <= j < |db.models| && db.models[j].shortName == re[k]
               && db.models[j].numEnsMems == newer[k];
      EnsOfShortUnique(db.models, j);
    }
  }

  /** A list that holds the same names as another has all its sizes
      positive exactly when the other does. */
  lemma PositiveOnPermutation(ms: seq<ModelInfo>, a: seq<string>, b: seq<string>)
    requires multiset(a) == multiset(b)
    ensures (forall k :: 0 <= k < |a| ==> EnsOfShort(ms, a[k]) > 0) <==>
            (forall k :: 0 <= k < |b| ==> EnsOfShort(ms, b[k]) > 0)
  {
    if forall k :: 0 <= k < |a| ==> EnsOfShort(ms, a[k]) > 0 {
      forall k | 0 <= k < |b| ensures EnsOfShort(ms, b[k]) > 0 {
        assert b[k] in multiset(a);
        var i :| 0 <= i < |a| && a[i] == b[k];
      }
    }
    if forall k :: 0 <= k < |b| ==> EnsOfShort(ms, b[k]) > 0 {
      forall k | 0 <= k < |a| ensures EnsOfShort(ms, a[k]) > 0 {
        assert a[k] in multiset(b);
        var i :| 0 <= i < |b| && b[i] == a[k];
      }
    }
  }

  /**
   * On a database listing each name once, the older script accepts exactly
   * the model lists make_single_mv_vx_plot.py accepts: its checks in
   * command-line order come to the same as the newer checks before and
   * after the reordering.
   */
  lemma SameModelsAccepted(db: Database, shorts: seq<string>, threshold: string, numColors: nat)
    requires WellFormed(db.models)
    ensures CheckModelsInOrder(db, shorts, threshold, numColors).None? <==>
              CheckModels(db, shorts, threshold).None?
              && (forall k :: 0 <= k < |shorts| ==> ReorderedEnsMems(SortedModels(db.models), shorts)[k] > 0)
              && |shorts| <= numColors
  {
    if forall m :: m in shorts ==> m in Shorts(db.models) {
      var re := ReorderedShorts(SortedModels(db.models), shorts);
      ReorderIsPermutation(db, shorts);
      OlderEnsByName(db, shorts);
      NewerEnsByName(db, shorts);
      PositiveOnPermutation(db.models, shorts, re);
    }
  }

  /** With one model named twice and another unknown, the older script
      reports the unknown model, make_single_mv_vx_plot.py the repetition. */
  lemma UnknownReportedBeforeDuplicates()
    ensures var db := Database([], [ModelInfo("Model A", "a", 1)]);
            CheckModelsInOrder(db, ["a", "a", "b"], "", 3) == Some(UnknownModel("b"))
            && CheckModels(db, ["a", "a", "b"], "") == Some(DuplicateModels({"a"}))
  {
    var db := Database([], [ModelInfo("Model A", "a", 1)]);
    var shorts := ["a", "a", "b"];
    UnknownFoundFirst(db, shorts);
    InOrderUnknownFirst(db, shorts, "", 3, "b");
    assert Duplicates(shorts) == {"a"} by {
      assert multiset(shorts)["a"] == 2;
      assert multiset(shorts)["b"] == 1;
    }
    DuplicatesFirst(db, shorts, "");
  }

  /** The older script looks for an unknown model before anything else. */
  lemma InOrderUnknownFirst(db: Database, shorts: seq<string>, threshold: string, numColors: nat, m: string)
    requires FirstNotIn(shorts, Shorts(db.models)) == Some(m)
    ensures CheckModelsInOrder(db, shorts, threshold, numColors) == Some(UnknownModel(m))
  {
  }

  /** make_single_mv_vx_plot.py looks for repeated models before anything else. */
  lemma DuplicatesFirst(db: Database, shorts: seq<string>, threshold: string)
    requires Duplicates(shorts) != {}
    ensures CheckModels(db, shorts, threshold) == Some(DuplicateModels(Duplicates(shorts)))
  {
  }

  lemma UnknownFoundFirst(db: Database, shorts: seq<string>)
    requires db == Database([], [ModelInfo("Model A", "a", 1)]) && shorts == ["a", "a", "b"]
    ensures FirstNotIn(shorts, Shorts(db.models)) == Some("b")
  {
    assert Shorts(db.models) == ["a"];
    assert shorts[2] == "b" && "b" !in Shorts(db.models);
    var r := FirstNotIn(shorts, Shorts(db.models));
    assert r.Some?;
    assert r.value in shorts && r.value != "a";
  }

  // ------------------------------------------------------------ stages

  /** The host and database are configured and the model checks pass. */
  predicate ModelChecksPass(cfg: PlotConfig, hosts: map<string, Host>, dbs: map<string, Database>, a: Args)
  {
    Configured(hosts, dbs, a)
    && CheckModelsInOrder(dbs[a.databaseName], a.modelNamesShort, a.threshold, |cfg.colors|).None?
  }

  /** Every check up to and including the threshold's units passes. */
  predicate ThreshChecksPass(cfg: PlotConfig, hosts: map<string, Host>, dbs: map<string, Database>, a: Args)
    requires ArgsAccepted(cfg, a)
  {
    ModelChecksPass(cfg, hosts, dbs, a) && LevelOf(cfg, a).Ok?
    && GetThreshInfo(ThreshUsed(cfg, a)).Ok?
    && (ThreshUsed(cfg, a) == "" || GetThreshInfo(ThreshUsed(cfg, a)).value.units in cfg.fields[a.fcstField].validUnits)
  }

  /** The command line after generate_metviewer_xml: the models and colours
      are left as given; the ensemble-mean flag and the threshold are
      rewritten once their stage is reached. */
  function CommandLineAfter(cfg: PlotConfig, hosts: map<string, Host>, dbs: map<string, Database>, a: Args): (r: Args)
    requires ArgsAccepted(cfg, a)
    ensures r.modelNamesShort == a.modelNamesShort && r.modelColors == a.modelColors
    ensures r.(inclEnsMeans := a.inclEnsMeans, threshold := a.threshold) == a
  {
    if !ModelChecksPass(cfg, hosts, dbs, a) then a
    else
      var a1 := a.(inclEnsMeans := Some(InclEnsMeans(a.inclEnsMeans, a.vxMetric)));
      if LevelOf(cfg, a).Err? then a1 else a1.(threshold := ThreshUsed(cfg, a))
  }

  /**
   * The model stage, lines 412-542: the host, the database, then the model
   * checks; on success the database names and ensemble sizes of the models
   * in command-line order.  Nothing is changed.
   */
  method CheckRequest(cla: CommandLine, cfg: PlotConfig, hosts: map<string, Host>,
                      dbs: map<string, Database>) returns (r: Result<(seq<string>, seq<int>), Failure>)
    ensures r.Ok? <==> ModelChecksPass(cfg, hosts, dbs, cla.Values())
    ensures cla.host !in hosts ==> r == Err(HostNotConfigured(cla.host))
    ensures cla.host in hosts && cla.databaseName !in dbs ==> r == Err(DatabaseNotConfigured(cla.databaseName))
    ensures Configured(hosts, dbs, cla.Values()) && r.Err? ==>
              r == Err(CheckModelsInOrder(dbs[cla.databaseName], cla.modelNamesShort, cla.threshold,
                                          |cfg.colors|).value)
    ensures r.Ok? ==> r.value == (NamesInDb(dbs[cla.databaseName], cla.modelNamesShort),
                                  EnsMemsByModel(dbs[cla.databaseName], cla.modelNamesShort))
    ensures r.Ok? ==> forall i :: 0 <= i < |r.value.1| ==> r.value.1[i] > 0
  {
    if cla.host !in hosts {
      return Err(HostNotConfigured(cla.host));
    }
    if cla.databaseName !in dbs {
      return Err(DatabaseNotConfigured(cla.databaseName));
    }
    var db := dbs[cla.databaseName];
    var check := CheckModelsInOrder(db, cla.modelNamesShort, cla.threshold, |cfg.colors|);
    if check.Some? {
      return Err(check.value);
    }
    return Ok((NamesInDb(db, cla.modelNamesShort), EnsMemsByModel(db, cla.modelNamesShort)));
  }

  /**
   * generate_metviewer_xml of the older script: the model stage, then the
   * level and threshold stage and the template stage it shares with
   * make_single_mv_vx_plot.py; the first failure stops it.
   */
  method GenerateMetviewerXml(cla: CommandLine, cfg: PlotConfig, hosts: map<string, Host>,
                              dbs: map<string, Database>) returns (r: Result<Generated, Failure>)
    requires ArgsAccepted(cfg, cla.Values())
    modifies cla
    ensures cla.Values() == CommandLineAfter(cfg, hosts, dbs, old(cla.Values()))
    ensures r.Ok? <==> ThreshChecksPass(cfg, hosts, dbs, old(cla.Values()))
                       && XtickLabelFreq(cla.vxMetric, cla.levelOrAccum.value, cla.fcstLenHrs).Some?
    ensures cla.host !in hosts ==> r == Err(HostNotConfigured(cla.host))
    ensures cla.host in hosts && cla.databaseName !in dbs ==> r == Err(DatabaseNotConfigured(cla.databaseName))
    ensures Configured(hosts, dbs, old(cla.Values())) && !ModelChecksPass(cfg, hosts, dbs, old(cla.Values())) ==>
              r == Err(CheckModelsInOrder(dbs[cla.databaseName], old(cla.modelNamesShort), old(cla.threshold),
                                          |cfg.colors|).value)
    ensures r.Ok? ==>
              VarsMatch(cfg, old(cla.Values()), cla.Values(),
                        NamesInDb(dbs[cla.databaseName], cla.modelNamesShort),
                        EnsMemsByModel(dbs[cla.databaseName], cla.modelNamesShort), r.value.vars)
    ensures r.Ok? ==> r.value.batchScript == hosts[cla.host].batchScript
    ensures r.Ok? ==> r.value.templateFn == TemplateFn(cla.vxMetric)
    ensures r.Ok? ==>
              r.value.outputXmlPath == PathJoin(PathJoin(cla.outputDir, "plots"),
                OutputXmlFn(cla.vxMetric, cla.fcstField, LevelOf(cfg, old(cla.Values())).value,
                            cla.threshold, cla.modelNamesShort))
  {
    var models := CheckRequest(cla, cfg, hosts, dbs);
    if models.Err? {
      return Err(models.error);
    }
    var (names, ensMems) := models.value;
    var settled := SettleLevelAndThreshold(cla, cfg);
    if settled.Err? {
      return Err(settled.error);
    }
    var (lvl, t) := settled.value;
    r := FillTemplate(cla, cfg, hosts[cla.host].batchScript, names, ensMems, lvl, t);
  }

  /**
   * plot_vx_metviewer: the load-time check of every field's levels against
   * the master list, then the xml generation; the xml path is returned.
   * Running the METviewer batch script on it is not part of this model.
   */
  method PlotVxMetviewer(fieldList: seq<FieldInfo>, master: seq<string>, cfg: PlotConfig,
                         cla: CommandLine, hosts: map<string, Host>, dbs: map<string, Database>)
      returns (r: Result<string, Failure>)
    requires ArgsAccepted(cfg, cla.Values())
    modifies cla
    ensures FirstLevelNotInMaster(fieldList, master).Some? ==>
              r == Err(LevelNotInMaster(FirstLevelNotInMaster(fieldList, master).value.0,
                                        FirstLevelNotInMaster(fieldList, master).value.1))
              && cla.Values() == old(cla.Values())
    ensures FirstLevelNotInMaster(fieldList, master).None? ==>
              cla.Values() == CommandLineAfter(cfg, hosts, dbs, old(cla.Values()))
    ensures r.Ok? <==> FirstLevelNotInMaster(fieldList, master).None?
                       && ThreshChecksPass(cfg, hosts, dbs, old(cla.Values()))
                       && XtickLabelFreq(cla.vxMetric, cla.levelOrAccum.value, cla.fcstLenHrs).Some?
  {
    var levels := CheckFieldLevels(fieldList, master);
    if levels.Some? {
      return Err(levels.value);
    }
    var generated := GenerateMetviewerXml(cla, cfg, hosts, dbs);
    if generated.Err? {
      return Err(generated.error);
    }
    r := Ok(generated.value.outputXmlPath);
  }
}
