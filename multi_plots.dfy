/**
 * make_multi_mv_vx_plots: reduce the plot configuration tree according to
 * the --incl_only_... and --excl_... options, then call the single-plot
 * script once per remaining metric-field-level(-threshold) combination.
 *
 * The headline result (MultiPlots.Reduce) says which plots a successful run
 * makes: exactly the combinations of the configuration that every option
 * selects, as the options were given on the command line.
 */
module MultiPlots {

  import opened Wrappers
  import opened PyStr
  import opened PySeq
  import opened PlotTree
  import opened PlotFilters
  import opened PlotOptions

  // --------------------------------------------------------- selection

  /** Whether the options of one key axis let key k through.  An
      include-only list only pops the keys of the axis's list of valid
      values, so a configuration key outside that list survives it. */
  predicate KeySelected(s: Selection, universe: seq<string>, k: string)
  {
    (|s.inclOnly| > 0 ==> k !in universe || k in s.inclOnly) && k !in s.excl
  }

  /** Whether the threshold options let threshold th through. */
  predicate ThreshSelected(s: Selection, th: string)
  {
    (|s.inclOnly| > 0 ==> th in s.inclOnly) && th !in s.excl
  }

  /** The metric, field and level options up to stage k (1: metrics,
      2: fields, 3: levels) let this combination through. */
  predicate LevelSelected(o: Options, vv: ValidVals, k: nat, m: string, f: string, l: string)
  {
    KeySelected(o.metrics, vv.metrics, m)
    && (k >= 2 ==> KeySelected(o.fields, vv.fields, f))
    && (k >= 3 ==> KeySelected(o.levels, vv.levels, l))
  }

  /** One call of the single-plot script the options ask for, read off the
      configuration as written: a threshold of a metric that needs one, or
      the empty threshold for a level of a metric that needs none. */
  predicate SelectedJob(t: Tree, o: Options, vv: ValidVals, needs: map<string, bool>, j: Job)
  {
    LevelSelected(o, vv, 3, j.metric, j.field, j.level)
    && if NeedsThresh(needs, j.metric)
       then HasThresh(t, j.metric, j.field, j.level, j.thresh) && ThreshSelected(o.threshes, j.thresh)
       else j.thresh == "" && HasLevel(t, j.metric, j.field, j.level)
  }

  // --------------------------------------------- occurrence of path keys

  lemma LevelKeysOccur(t: Tree, m: string, f: string, l: string)
    requires HasLevel(t, m, f, l)
    ensures MetricOccurs(t, m) && FieldOccurs(t, f) && LevelOccurs(t, l)
  {
    var e, fe, le :| e in t && fe in e.fields && le in fe.levels
                     && e.metric == m && fe.field == f && le.level == l;
  }

  lemma ThreshKeysOccur(t: Tree, m: string, f: string, l: string, th: string)
    requires HasThresh(t, m, f, l, th)
    ensures HasLevel(t, m, f, l) && ThreshOccurs(t, th)
  {
    var e, fe, le :| e in t && fe in e.fields && le in fe.levels
                     && e.metric == m && fe.field == f && le.level == l && th in le.threshes;
  }

  /** For a key the configuration holds, the keys an axis pass pops are
      exactly the ones the options as given rule out: the clean-up only
      took out values the configuration lacks, and an include-only list
      that lost every value has already stopped the run. */
  lemma DroppedIffUnselected(t: Tree, a: Axis, o: Selection, c: Selection, universe: seq<string>, k: string)
    requires CleanedSelection(t, a, o, c)
    requires |o.inclOnly| > 0 ==> |c.inclOnly| > 0
    requires Occurs(t, a, k)
    ensures k in Dropped(o, c, universe) <==> !KeySelected(o, universe, k)
  {
    assert Present(t, a)(k);
    assert k in c.inclOnly <==> k in o.inclOnly;
    assert k in c.excl <==> k in o.excl;
  }

  /** The same for a threshold the configuration holds and the filter that
      runs on the threshold lists. */
  lemma KeptIffSelected(t: Tree, o: Selection, c: Selection, th: string)
    requires CleanedSelection(t, ThreshAxis, o, c)
    requires |o.inclOnly| > 0 ==> |c.inclOnly| > 0
    requires !(InclActive(o, c) && ExclActive(o, c))
    requires ThreshOccurs(t, th)
    ensures InclActive(o, c) ==> (Kept(KeepOnly(Keys(c.inclOnly)), th) <==> ThreshSelected(o, th))
    ensures ExclActive(o, c) ==> (Kept(Discard(Keys(c.excl)), th) <==> ThreshSelected(o, th))
    ensures !InclActive(o, c) && !ExclActive(o, c) ==> ThreshSelected(o, th)
  {
    assert Present(t, ThreshAxis)(th);
    assert th in c.inclOnly <==> th in o.inclOnly;
    assert th in c.excl <==> th in o.excl;
  }

  // ------------------------------------------------------------ stages

  /** What a stage tree holds, relative to the configuration t. */
  ghost predicate StageOf(t: Tree, s: Tree, o: Options, vv: ValidVals, k: nat)
  {
    (forall m, f, l :: HasLevel(s, m, f, l) <==> HasLevel(t, m, f, l) && LevelSelected(o, vv, k, m, f, l))
    && (forall m, f, l, th :: HasThresh(s, m, f, l, th) <==>
          HasThresh(t, m, f, l, th) && LevelSelected(o, vv, k, m, f, l))
  }

  /** The options as the reducer receives them: main's checks passed, the
      clean-up ran against t, and no include-only list lost every value. */
  ghost predicate Prepared(t: Tree, o: Options, c: Options)
  {
    FirstBothGiven(o).None? && CleanedFrom(t, o, c) && FirstEmptiedInclOnly(o, c).None?
  }

  /** The metric pass, seen on level and threshold paths. */
  lemma MetricStepPaths(t: Tree, d: set<string>, t1: Tree)
    requires t1 == WithoutMetrics(t, d)
    ensures forall m, f, l :: HasLevel(t1, m, f, l) <==> HasLevel(t, m, f, l) && m !in d
    ensures forall m, f, l, th :: HasThresh(t1, m, f, l, th) <==> HasThresh(t, m, f, l, th) && m !in d
  {
    WithoutMetricsPaths(t, d);
    forall m, f, l ensures HasLevel(t1, m, f, l) <==> HasLevel(t, m, f, l) && m !in d {
      assert Has(t1, LevelPath(m, f, l)) <==> Has(t, LevelPath(m, f, l)) && m !in d;
    }
    forall m, f, l, th ensures HasThresh(t1, m, f, l, th) <==> HasThresh(t, m, f, l, th) && m !in d {
      assert Has(t1, ThreshPath(m, f, l, th)) <==> Has(t, ThreshPath(m, f, l, th)) && m !in d;
    }
  }

  lemma MetricStage(t: Tree, o: Options, c: Options, vv: ValidVals, t1: Tree)
    requires Prepared(t, o, c)
    requires t1 == WithoutMetrics(t, Dropped(o.metrics, c.metrics, vv.metrics))
    ensures StageOf(t, t1, o, vv, 1)
  {
    var d := Dropped(o.metrics, c.metrics, vv.metrics);
    MetricStepPaths(t, d, t1);
    assert CleanedSelection(t, MetricAxis, o.metrics, c.metrics);
    assert |o.metrics.inclOnly| > 0 ==> |c.metrics.inclOnly| > 0;
    forall m, f, l | HasLevel(t, m, f, l)
      ensures m in d <==> !KeySelected(o.metrics, vv.metrics, m)
    {
      LevelKeysOccur(t, m, f, l);
      DroppedIffUnselected(t, MetricAxis, o.metrics, c.metrics, vv.metrics, m);
    }
    forall m, f, l, th | HasThresh(t, m, f, l, th) ensures HasLevel(t, m, f, l) {
      ThreshKeysOccur(t, m, f, l, th);
    }
  }

  /** The field pass and its clean-up, seen on level and threshold paths. */
  lemma FieldStepPaths(t1: Tree, d: set<string>, t2: Tree)
    requires t2 == DropEmptyMetrics(FieldsWithout(t1, d))
    ensures forall m, f, l :: HasLevel(t2, m, f, l) <==> HasLevel(t1, m, f, l) && f !in d
    ensures forall m, f, l, th :: HasThresh(t2, m, f, l, th) <==> HasThresh(t1, m, f, l, th) && f !in d
  {
    var t2a := FieldsWithout(t1, d);
    FieldsWithoutPaths(t1, d);
    DropEmptyMetricsPaths(t2a);
    forall m, f, l ensures HasLevel(t2, m, f, l) <==> HasLevel(t1, m, f, l) && f !in d {
      var p := LevelPath(m, f, l);
      assert Has(t2, p) <==> Has(t2a, p);
      assert Has(t2a, p) <==> Has(t1, p) && f !in d;
    }
    forall m, f, l, th ensures HasThresh(t2, m, f, l, th) <==> HasThresh(t1, m, f, l, th) && f !in d {
      var p := ThreshPath(m, f, l, th);
      assert Has(t2, p) <==> Has(t2a, p);
      assert Has(t2a, p) <==> Has(t1, p) && f !in d;
    }
  }

  lemma FieldStage(t: Tree, o: Options, c: Options, vv: ValidVals, t1: Tree, t2: Tree)
    requires Prepared(t, o, c) && StageOf(t, t1, o, vv, 1)
    requires t2 == DropEmptyMetrics(FieldsWithout(t1, Dropped(o.fields, c.fields, vv.fields)))
    ensures StageOf(t, t2, o, vv, 2)
  {
    var d := Dropped(o.fields, c.fields, vv.fields);
    FieldStepPaths(t1, d, t2);
    assert CleanedSelection(t, FieldAxis, o.fields, c.fields);
    assert |o.fields.inclOnly| > 0 ==> |c.fields.inclOnly| > 0;
    forall m, f, l | HasLevel(t, m, f, l)
      ensures f in d <==> !KeySelected(o.fields, vv.fields, f)
    {
      LevelKeysOccur(t, m, f, l);
      DroppedIffUnselected(t, FieldAxis, o.fields, c.fields, vv.fields, f);
    }
    forall m, f, l, th | HasThresh(t, m, f, l, th) ensures HasLevel(t, m, f, l) {
      ThreshKeysOccur(t, m, f, l, th);
    }
  }

  /** The level pass and its clean-up, seen on level and threshold paths. */
  lemma LevelStepPaths(t2: Tree, d: set<string>, t3: Tree)
    requires t3 == PruneLevelStage(LevelsWithout(t2, d))
    ensures forall m, f, l :: HasLevel(t3, m, f, l) <==> HasLevel(t2, m, f, l) && l !in d
    ensures forall m, f, l, th :: HasThresh(t3, m, f, l, th) <==> HasThresh(t2, m, f, l, th) && l !in d
  {
    var t3a := LevelsWithout(t2, d);
    LevelsWithoutPaths(t2, d);
    PruneLevelStagePaths(t3a);
    forall m, f, l ensures HasLevel(t3, m, f, l) <==> HasLevel(t2, m, f, l) && l !in d {
      var p := LevelPath(m, f, l);
      assert Has(t3, p) <==> Has(t3a, p);
    }
    forall m, f, l, th ensures HasThresh(t3, m, f, l, th) <==> HasThresh(t2, m, f, l, th) && l !in d {
      var p := ThreshPath(m, f, l, th);
      assert Has(t3, p) <==> Has(t3a, p);
    }
  }

  lemma LevelStage(t: Tree, o: Options, c: Options, vv: ValidVals, t2: Tree, t3: Tree)
    requires Prepared(t, o, c) && StageOf(t, t2, o, vv, 2)
    requires t3 == PruneLevelStage(LevelsWithout(t2, Dropped(o.levels, c.levels, vv.levels)))
    ensures StageOf(t, t3, o, vv, 3)
  {
    var d := Dropped(o.levels, c.levels, vv.levels);
    LevelStepPaths(t2, d, t3);
    assert CleanedSelection(t, LevelAxis, o.levels, c.levels);
    assert |o.levels.inclOnly| > 0 ==> |c.levels.inclOnly| > 0;
    forall m, f, l | HasLevel(t, m, f, l)
      ensures l in d <==> !KeySelected(o.levels, vv.levels, l)
    {
      LevelKeysOccur(t, m, f, l);
      DroppedIffUnselected(t, LevelAxis, o.levels, c.levels, vv.levels, l);
    }
    forall m, f, l, th | HasThresh(t, m, f, l, th) ensures HasLevel(t, m, f, l) {
      ThreshKeysOccur(t, m, f, l, th);
    }
  }

  /** The threshold lists after the threshold pass, whichever filter ran. */
  ghost predicate ThreshStageLists(o: Options, c: Options, t3: Tree, t4a: Tree)
  {
    (InclActive(o.threshes, c.threshes) ==> ThreshFiltered(t3, t4a, KeepOnly(Keys(c.threshes.inclOnly))))
    && (ExclActive(o.threshes, c.threshes) ==> ThreshFiltered(t3, t4a, Discard(Keys(c.threshes.excl))))
    && (!InclActive(o.threshes, c.threshes) && !ExclActive(o.threshes, c.threshes) ==> t4a == t3)
  }

  /** Filtering the threshold lists, seen on threshold and level paths. */
  lemma FilteredThreshPaths(t3: Tree, t4a: Tree, sel: ThreshSelection)
    requires ThreshFiltered(t3, t4a, sel)
    ensures forall m, f, l, th :: HasThresh(t4a, m, f, l, th) <==> HasThresh(t3, m, f, l, th) && Kept(sel, th)
    ensures forall m, f, l :: HasLevel(t4a, m, f, l) <==> HasLevel(t3, m, f, l)
  {
    ThreshFilteredPaths(t3, t4a, sel);
    forall m, f, l, th ensures HasThresh(t4a, m, f, l, th) <==> HasThresh(t3, m, f, l, th) && Kept(sel, th) {
      assert Has(t4a, ThreshPath(m, f, l, th)) <==> Has(t3, ThreshPath(m, f, l, th)) && Kept(sel, th);
    }
    forall m, f, l ensures HasLevel(t4a, m, f, l) <==> HasLevel(t3, m, f, l) {
      assert Has(t4a, LevelPath(m, f, l)) <==> Has(t3, LevelPath(m, f, l));
    }
  }

  /** The clean-up after the threshold pass, seen on threshold and level paths. */
  lemma PrunedThreshPaths(t4a: Tree, needs: map<string, bool>, t4: Tree)
    requires t4 == PruneThreshStage(t4a, needs)
    ensures forall m, f, l, th :: HasThresh(t4, m, f, l, th) <==> HasThresh(t4a, m, f, l, th)
    ensures forall m, f, l :: !NeedsThresh(needs, m) ==>
              (HasLevel(t4, m, f, l) <==> HasLevel(t4a, m, f, l))
    ensures forall m, f, l :: HasLevel(t4, m, f, l) ==> HasLevel(t4a, m, f, l)
  {
    forall m, f, l, th ensures HasThresh(t4, m, f, l, th) <==> HasThresh(t4a, m, f, l, th) {
      var p := ThreshPath(m, f, l, th);
      PruneThreshPath(t4a, needs, p);
    }
    forall m, f, l | !NeedsThresh(needs, m)
      ensures HasLevel(t4, m, f, l) <==> HasLevel(t4a, m, f, l)
    {
      var p := LevelPath(m, f, l);
      PruneThreshPath(t4a, needs, p);
    }
    forall m, f, l | HasLevel(t4, m, f, l) ensures HasLevel(t4a, m, f, l) {
      var p := LevelPath(m, f, l);
      assert Has(t4, p);
      PruneThreshPath(t4a, needs, p);
    }
  }

  /** The threshold pass and its clean-up, seen on threshold paths and on
      level paths of metrics that need no threshold. */
  lemma ThreshStepPaths(o: Options, c: Options, needs: map<string, bool>, t3: Tree, t4a: Tree, t4: Tree)
    requires ThreshStageLists(o, c, t3, t4a)
    requires !(InclActive(o.threshes, c.threshes) && ExclActive(o.threshes, c.threshes))
    requires t4 == PruneThreshStage(t4a, needs)
    ensures InclActive(o.threshes, c.threshes) ==>
              forall m, f, l, th :: HasThresh(t4, m, f, l, th) <==>
                HasThresh(t3, m, f, l, th) && Kept(KeepOnly(Keys(c.threshes.inclOnly)), th)
    ensures ExclActive(o.threshes, c.threshes) ==>
              forall m, f, l, th :: HasThresh(t4, m, f, l, th) <==>
                HasThresh(t3, m, f, l, th) && Kept(Discard(Keys(c.threshes.excl)), th)
    ensures !InclActive(o.threshes, c.threshes) && !ExclActive(o.threshes, c.threshes) ==>
              forall m, f, l, th :: HasThresh(t4, m, f, l, th) <==> HasThresh(t3, m, f, l, th)
    ensures forall m, f, l :: !NeedsThresh(needs, m) ==>
              (HasLevel(t4, m, f, l) <==> HasLevel(t3, m, f, l))
    ensures forall m, f, l :: HasLevel(t4, m, f, l) ==> HasLevel(t3, m, f, l)
  {
    PrunedThreshPaths(t4a, needs, t4);
    if InclActive(o.threshes, c.threshes) {
      FilteredThreshPaths(t3, t4a, KeepOnly(Keys(c.threshes.inclOnly)));
    } else if ExclActive(o.threshes, c.threshes) {
      FilteredThreshPaths(t3, t4a, Discard(Keys(c.threshes.excl)));
    }
  }

  lemma ThreshStage(t: Tree, o: Options, c: Options, vv: ValidVals, needs: map<string, bool>,
                    t3: Tree, t4a: Tree, t4: Tree)
    requires Prepared(t, o, c) && StageOf(t, t3, o, vv, 3)
    requires ThreshStageLists(o, c, t3, t4a)
    requires t4 == PruneThreshStage(t4a, needs)
    ensures forall m, f, l, th :: HasThresh(t4, m, f, l, th) <==>
              HasThresh(t, m, f, l, th) && LevelSelected(o, vv, 3, m, f, l)
              && ThreshSelected(o.threshes, th)
    ensures forall m, f, l :: !NeedsThresh(needs, m) ==>
              (HasLevel(t4, m, f, l) <==> HasLevel(t, m, f, l) && LevelSelected(o, vv, 3, m, f, l))
    ensures forall m, f, l :: HasLevel(t4, m, f, l) ==> HasLevel(t, m, f, l)
  {
    var so, sc := o.threshes, c.threshes;
    assert CleanedSelection(t, ThreshAxis, so, sc);
    assert |so.inclOnly| > 0 ==> |sc.inclOnly| > 0;
    assert !(InclActive(so, sc) && ExclActive(so, sc)) by {
      assert !BothGiven(o, ThreshAxis);
    }
    ThreshStepPaths(o, c, needs, t3, t4a, t4);
    forall m, f, l, th | HasThresh(t, m, f, l, th)
      ensures InclActive(so, sc) ==> (Kept(KeepOnly(Keys(sc.inclOnly)), th) <==> ThreshSelected(so, th))
      ensures ExclActive(so, sc) ==> (Kept(Discard(Keys(sc.excl)), th) <==> ThreshSelected(so, th))
      ensures !InclActive(so, sc) && !ExclActive(so, sc) ==> ThreshSelected(so, th)
    {
      ThreshKeysOccur(t, m, f, l, th);
      KeptIffSelected(t, so, sc, th);
    }
  }

  /** The final tree's calls are exactly the selected combinations. */
  lemma FinalJobs(t: Tree, o: Options, vv: ValidVals, needs: map<string, bool>, t4: Tree)
    requires ThreshListsValid(t, needs)
    requires forall m, f, l, th :: HasThresh(t4, m, f, l, th) <==>
               HasThresh(t, m, f, l, th) && LevelSelected(o, vv, 3, m, f, l)
               && ThreshSelected(o.threshes, th)
    requires forall m, f, l :: !NeedsThresh(needs, m) ==>
               (HasLevel(t4, m, f, l) <==> HasLevel(t, m, f, l) && LevelSelected(o, vv, 3, m, f, l))
    ensures forall j :: j in Jobs(t4, needs) <==> SelectedJob(t, o, vv, needs, j)
  {
    JobsPaths(t4, needs);
  }

  /** A stage tree that came out empty leaves nothing the options select. */
  lemma EmptyStageSelectsNothing(t: Tree, o: Options, vv: ValidVals, needs: map<string, bool>,
                                 s: Tree, k: nat)
    requires k <= 3 && StageOf(t, s, o, vv, k) && |s| == 0
    ensures forall j :: !SelectedJob(t, o, vv, needs, j)
  {
    forall j | SelectedJob(t, o, vv, needs, j) ensures HasLevel(t, j.metric, j.field, j.level) {
      if NeedsThresh(needs, j.metric) {
        ThreshKeysOccur(t, j.metric, j.field, j.level, j.thresh);
      }
    }
  }

  /** Thresholds only survive under metrics that need them. */
  lemma StrayThreshesStayOut(t: Tree, t4: Tree, needs: map<string, bool>)
    requires ThreshesOnlyWhereNeeded(t, needs)
    requires forall m, f, l, th :: HasThresh(t4, m, f, l, th) ==> HasThresh(t, m, f, l, th)
    ensures ThreshesOnlyWhereNeeded(t4, needs)
  {
    forall e, fe, le | e in t4 && fe in e.fields && le in fe.levels && |le.threshes| > 0
      ensures NeedsThresh(needs, e.metric)
    {
      var th := le.threshes[0];
      assert HasThresh(t4, e.metric, fe.field, le.level, th);
      var e', fe', le' :| e' in t && fe' in e'.fields && le' in fe'.levels && e'.metric == e.metric
                          && fe'.field == fe.field && le'.level == le.level && th in le'.threshes;
    }
  }

  /** The reduction of the configuration tree, stage by stage, each stage
      stopping the run when it leaves the tree empty.  A run that gets
      through calls the single-plot script exactly for the selected
      combinations, and at least once; a run stopped here has nothing
      selected. */
  method Reduce(t: Tree, o: Options, c: Options, vv: ValidVals, needs: map<string, bool>)
    returns (r: Result<Tree, Failure>)
    requires ThreshListsValid(t, needs)
    requires Prepared(t, o, c)
    ensures r.Ok? ==> forall j :: j in Jobs(r.value, needs) <==> SelectedJob(t, o, vv, needs, j)
    ensures r.Ok? <==> exists j :: SelectedJob(t, o, vv, needs, j)
    ensures r.Err? ==> r.error.NothingLeft?
    ensures r.Ok? ==> NoEmptyFields(r.value) && NoThreshlessLevels(r.value, needs)
                      && ThreshesOnlyWhereNeeded(r.value, needs)
  {
    var t1 := MetricPass(t, o.metrics, c.metrics, vv.metrics);
    MetricStage(t, o, c, vv, t1);
    if |t1| == 0 {
      EmptyStageSelectsNothing(t, o, vv, needs, t1, 1);
      return Err(NothingLeft(MetricAxis));
    }

    var t2 := FieldPass(t1, o.fields, c.fields, vv.fields);
    t2 := PopEmptyMetrics(t2);
    FieldStage(t, o, c, vv, t1, t2);
    if |t2| == 0 {
      EmptyStageSelectsNothing(t, o, vv, needs, t2, 2);
      return Err(NothingLeft(FieldAxis));
    }

    var t3 := LevelPass(t2, o.levels, c.levels, vv.levels);
    t3 := PruneAfterLevels(t3);
    LevelStage(t, o, c, vv, t2, t3);
    if |t3| == 0 {
      EmptyStageSelectsNothing(t, o, vv, needs, t3, 3);
      return Err(NothingLeft(LevelAxis));
    }

    r := ReduceThresholds(t, o, c, vv, needs, t3);
  }

  /** The threshold stage of the reduction, which ends it. */
  method ReduceThresholds(t: Tree, o: Options, c: Options, vv: ValidVals, needs: map<string, bool>,
                          t3: Tree)
    returns (r: Result<Tree, Failure>)
    requires ThreshListsValid(t, needs)
    requires Prepared(t, o, c) && StageOf(t, t3, o, vv, 3)
    ensures r.Ok? ==> forall j :: j in Jobs(r.value, needs) <==> SelectedJob(t, o, vv, needs, j)
    ensures r.Ok? <==> exists j :: SelectedJob(t, o, vv, needs, j)
    ensures r.Err? ==> r.error == NothingLeft(ThreshAxis)
    ensures r.Ok? ==> NoEmptyFields(r.value) && NoThreshlessLevels(r.value, needs)
                      && ThreshesOnlyWhereNeeded(r.value, needs)
  {
    assert !BothGiven(o, ThreshAxis);
    var t4a := ThreshPass(t3, o.threshes, c.threshes);
    assert KnownMetrics(t4a, needs) by {
      KnownAfterThreshPass(t, t3, t4a, o, c, vv, needs);
    }
    var t4 := PruneAfterThreshes(t4a, needs);
    ThreshStage(t, o, c, vv, needs, t3, t4a, t4);
    FinalJobs(t, o, vv, needs, t4);
    if |t4| == 0 {
      return Err(NothingLeft(ThreshAxis));
    }
    PruneThreshStagePaths(t4a, needs);
    JobsNonEmpty(t4, needs);
    assert Jobs(t4, needs)[0] in Jobs(t4, needs);
    StrayThreshesStayOut(t, t4, needs);
    return Ok(t4);
  }

  /** The threshold pass keeps every metric-field-level key, so every metric
      it leaves with a level is still one vx_metric_needs_thresh lists. */
  lemma KnownAfterThreshPass(t: Tree, t3: Tree, t4a: Tree, o: Options, c: Options, vv: ValidVals,
                             needs: map<string, bool>)
    requires KnownMetrics(t, needs) && StageOf(t, t3, o, vv, 3)
    requires ThreshStageLists(o, c, t3, t4a)
    requires !(InclActive(o.threshes, c.threshes) && ExclActive(o.threshes, c.threshes))
    ensures KnownMetrics(t4a, needs)
  {
    if InclActive(o.threshes, c.threshes) {
      ThreshFilteredPaths(t3, t4a, KeepOnly(Keys(c.threshes.inclOnly)));
    } else if ExclActive(o.threshes, c.threshes) {
      ThreshFilteredPaths(t3, t4a, Discard(Keys(c.threshes.excl)));
    }
    forall e, fe, le | e in t4a && fe in e.fields && le in fe.levels ensures e.metric in needs {
      assert Has(t4a, LevelPath(e.metric, fe.field, le.level));
      assert HasLevel(t, e.metric, fe.field, le.level);
      var e', fe', le' :| e' in t && fe' in e'.fields && le' in fe'.levels && e'.metric == e.metric
                          && fe'.field == fe.field && le'.level == le.level;
    }
  }
}
