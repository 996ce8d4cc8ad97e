/**
 * The two statistic-by-statistic drivers, both named make_mv_vx_plots.py:
 * the older one under ush/metviewer (include and exclude lists, a call
 * counter, an image counter and ordered copies of the images) and the one
 * under ush/python_utils/metviewer (a single optional stat to exclude, no
 * counters).  Both walk the "vx_stats" tree of the plot configuration,
 * stat -> field -> level -> thresholds, and call the plotting script once
 * per threshold.
 */
module StatDrivers {

  import opened Wrappers
  import opened PyStr
  import opened PySeq
  import opened PlotTree
  import MultiDriver

  // ------------------------------------------------------- the traversal

  /** The calls made for the stats that `keep` lets through, in the order
      the nested loops make them: stats, fields, levels and thresholds,
      each in dict order.  Every level is plotted once per entry of its
      "thresholds" list. */
  function SelectedJobs(t: Tree, keep: string -> bool): seq<Job>
    decreases |t|
  {
    if |t| == 0 then []
    else SelectedJobs(t[..|t| - 1], keep) + StatJobs(t[|t| - 1], keep)
  }

  /** The calls made for one stat. */
  function StatJobs(e: MetricEntry, keep: string -> bool): seq<Job>
  {
    if keep(e.metric) then FieldJobs(e.metric, e.fields, true) else []
  }

  /** A call is made exactly for each (stat, field, level, threshold) path
      of the tree whose stat is kept. */
  lemma {:induction false} SelectedJobsIff(t: Tree, keep: string -> bool, j: Job)
    ensures j in SelectedJobs(t, keep) <==>
              keep(j.metric) && HasThresh(t, j.metric, j.field, j.level, j.thresh)
    decreases |t|
  {
    if |t| > 0 {
      var init := t[..|t| - 1];
      var e := t[|t| - 1];
      SelectedJobsIff(init, keep, j);
      StatJobsIff(e, keep, j);
      HasThreshSnoc(t, j.metric, j.field, j.level, j.thresh);
    }
  }

  /** The calls made for one stat. */
  lemma StatJobsIff(e: MetricEntry, keep: string -> bool, j: Job)
    ensures j in StatJobs(e, keep) <==>
              keep(e.metric) && e.metric == j.metric && InEntry(e, j.field, j.level, j.thresh)
  {
    FieldJobsIff(e.metric, e.fields, true, j);
    assert forall le :: JobThreshes(le, true) == le.threshes;
  }

  /** Entry e lists threshold th under field f and level l. */
  predicate InEntry(e: MetricEntry, f: string, l: string, th: string)
  {
    exists fe, le :: fe in e.fields && le in fe.levels && fe.field == f && le.level == l && th in le.threshes
  }

  /** A path of a tree is a path of the tree without its last stat or of
      that stat. */
  lemma HasThreshSnoc(t: Tree, m: string, f: string, l: string, th: string)
    requires |t| > 0
    ensures HasThresh(t, m, f, l, th) <==>
              HasThresh(t[..|t| - 1], m, f, l, th) || (t[|t| - 1].metric == m && InEntry(t[|t| - 1], f, l, th))
  {
    var init, e := t[..|t| - 1], t[|t| - 1];
    assert t == init + [e];
    if HasThresh(t, m, f, l, th) {
      var e', fe, le :| e' in t && fe in e'.fields && le in fe.levels && e'.metric == m
                         && fe.field == f && le.level == l && th in le.threshes;
      if e' != e {
        assert e' in init;
      }
    }
    if HasThresh(init, m, f, l, th) {
      var e', fe, le :| e' in init && fe in e'.fields && le in fe.levels && e'.metric == m
                         && fe.field == f && le.level == l && th in le.threshes;
      assert e' in t;
    }
    if e.metric == m && InEntry(e, f, l, th) {
      var fe, le :| fe in e.fields && le in fe.levels && fe.field == f && le.level == l && th in le.threshes;
      assert e in t;
    }
  }

  lemma SelectedJobsTakeOneMore(t: Tree, i: nat, keep: string -> bool)
    requires i < |t|
    ensures SelectedJobs(t[..i + 1], keep) == SelectedJobs(t[..i], keep) + StatJobs(t[i], keep)
  {
    assert t[..i + 1][..i] == t[..i];
  }

  /** The number of thresholds listed under the stats `keep` lets through. */
  function ThreshCount(t: Tree, keep: string -> bool): nat
    decreases |t|
  {
    if |t| == 0 then 0
    else ThreshCount(t[..|t| - 1], keep)
         + (if keep(t[|t| - 1].metric) then FieldThreshCount(t[|t| - 1].fields) else 0)
  }

  function FieldThreshCount(fs: seq<FieldEntry>): nat
  {
    if |fs| == 0 then 0 else LevelThreshCount(fs[0].levels) + FieldThreshCount(fs[1..])
  }

  function LevelThreshCount(ls: seq<LevelEntry>): nat
  {
    if |ls| == 0 then 0 else |ls[0].threshes| + LevelThreshCount(ls[1..])
  }

  lemma {:induction false} LevelJobsCount(m: string, f: string, ls: seq<LevelEntry>)
    ensures |LevelJobs(m, f, ls, true)| == LevelThreshCount(ls)
  {
    if |ls| > 0 {
      LevelJobsCount(m, f, ls[1..]);
    }
  }

  lemma {:induction false} FieldJobsCount(m: string, fs: seq<FieldEntry>)
    ensures |FieldJobs(m, fs, true)| == FieldThreshCount(fs)
  {
    if |fs| > 0 {
      FieldJobsCount(m, fs[1..]);
      LevelJobsCount(m, fs[0].field, fs[0].levels);
    }
  }

  /** One call per listed threshold of a kept stat. */
  lemma {:induction false} SelectedJobsCount(t: Tree, keep: string -> bool)
    ensures |SelectedJobs(t, keep)| == ThreshCount(t, keep)
    decreases |t|
  {
    if |t| > 0 {
      SelectedJobsCount(t[..|t| - 1], keep);
      FieldJobsCount(t[|t| - 1].metric, t[|t| - 1].fields);
    }
  }

  // ------------------------------------------ reading an argument list

  /** A value that cannot be taken for an option flag. */
  predicate PlainValue(s: string)
  {
    !StartsWith(s, "--")
  }

  /** The item following the first occurrence of `flag`, as argparse reads
      a single-valued option. */
  function ValueAfter(args: seq<string>, flag: string): (r: Option<string>)
    ensures r.Some? ==> r.value in args
  {
    if |args| < 2 then None
    else if args[0] == flag then Some(args[1])
    else ValueAfter(args[1..], flag)
  }

  /** Items before the first occurrence of a flag do not change its value. */
  lemma {:induction false} ValueAfterSkips(a: seq<string>, b: seq<string>, flag: string)
    requires flag !in a && |b| >= 2 && b[0] == flag
    ensures ValueAfter(a + b, flag) == Some(b[1])
  {
    if |a| > 0 {
      assert (a + b)[1..] == a[1..] + b;
      ValueAfterSkips(a[1..], b, flag);
    }
  }

  /** A flag is none of a list of plain values. */
  lemma FlagNotPlain(xs: seq<string>, flag: string)
    requires forall x :: x in xs ==> PlainValue(x)
    requires StartsWith(flag, "--")
    ensures flag !in xs
  {
  }

  // ---------------------------------------------------- the older driver

  /** --include_stats and --exclude_stats (lists, lower-cased by argparse),
      --output_dir and --create_ordered_plots. */
  datatype OlderArgs = OlderArgs(includeStats: seq<string>, excludeStats: seq<string>,
                                 outputDir: string, createOrderedPlots: bool)

  /** A stat is skipped when it is excluded; otherwise it is plotted when no
      include list is given or it is on that list.  Exclusion is tested
      first. */
  predicate OlderSelected(args: OlderArgs, stat: string)
  {
    if stat in args.excludeStats then false
    else !(|args.includeStats| > 0) || (|args.includeStats| > 0 && stat in args.includeStats)
  }

  /** An excluded stat is never plotted, even when it is also included. */
  lemma ExcludeWins(args: OlderArgs, stat: string)
    requires stat in args.excludeStats
    ensures !OlderSelected(args, stat)
  {
  }

  /** Without an exclude list a stat is plotted exactly when there is no
      include list or the stat is on it. */
  lemma OlderSelectedIff(args: OlderArgs, stat: string)
    ensures OlderSelected(args, stat) <==>
              stat !in args.excludeStats && (args.includeStats == [] || stat in args.includeStats)
  {
  }

  /** The argument list handed to the older plot_vx_metviewer for one call. */
  function OlderArgList(cfg: MultiDriver.PlotConfig, outputDir: string, j: Job): (r: seq<string>)
    ensures |r| == |cfg.modelNames| + |cfg.fcstInitInfo| + 18
  {
    ["--mv_host", cfg.mvHost, "--mv_database_name", cfg.mvDatabaseName, "--model_names"]
    + cfg.modelNames
    + ["--vx_stat", j.metric, "--fcst_init_info"] + cfg.fcstInitInfo
    + ["--fcst_len_hrs", cfg.fcstLenHrs, "--fcst_field", j.field, "--level_or_accum", j.level,
       "--threshold", j.thresh, "--mv_output_dir", outputDir]
  }

  /** The configuration entries that precede the per-call values in an
      argument list are plain values. */
  predicate PlainConfig(cfg: MultiDriver.PlotConfig)
  {
    PlainValue(cfg.mvHost) && PlainValue(cfg.mvDatabaseName) && PlainValue(cfg.fcstLenHrs)
    && (forall x :: x in cfg.modelNames ==> PlainValue(x))
    && (forall x :: x in cfg.fcstInitInfo ==> PlainValue(x))
  }

  /** The plotting script reads the stat of the call back from its
      argument list. */
  lemma OlderArgListStat(cfg: MultiDriver.PlotConfig, outputDir: string, j: Job)
    requires PlainConfig(cfg)
    ensures ValueAfter(OlderArgList(cfg, outputDir, j), "--vx_stat") == Some(j.metric)
  {
    var head := ["--mv_host", cfg.mvHost, "--mv_database_name", cfg.mvDatabaseName, "--model_names"]
                + cfg.modelNames;
    var rest := ["--vx_stat", j.metric, "--fcst_init_info"] + cfg.fcstInitInfo
                + ["--fcst_len_hrs", cfg.fcstLenHrs, "--fcst_field", j.field, "--level_or_accum", j.level,
                   "--threshold", j.thresh, "--mv_output_dir", outputDir];
    assert OlderArgList(cfg, outputDir, j) == head + rest;
    FlagNotPlain(cfg.modelNames, "--vx_stat");
    ValueAfterSkips(head, rest, "--vx_stat");
  }

  /** The plotting script reads the field of the call back from its
      argument list. */
  lemma OlderArgListField(cfg: MultiDriver.PlotConfig, outputDir: string, j: Job)
    requires PlainConfig(cfg) && PlainValue(j.metric)
    ensures ValueAfter(OlderArgList(cfg, outputDir, j), "--fcst_field") == Some(j.field)
  {
    var head := ["--mv_host", cfg.mvHost, "--mv_database_name", cfg.mvDatabaseName, "--model_names"]
                + cfg.modelNames + ["--vx_stat", j.metric, "--fcst_init_info"] + cfg.fcstInitInfo
                + ["--fcst_len_hrs", cfg.fcstLenHrs];
    var rest := ["--fcst_field", j.field, "--level_or_accum", j.level,
                 "--threshold", j.thresh, "--mv_output_dir", outputDir];
    assert OlderArgList(cfg, outputDir, j) == head + rest;
    FlagNotPlain(cfg.modelNames, "--fcst_field");
    FlagNotPlain(cfg.fcstInitInfo, "--fcst_field");
    ValueAfterSkips(head, rest, "--fcst_field");
  }

  /** The plotting script reads the level of the call back from its
      argument list. */
  lemma OlderArgListLevel(cfg: MultiDriver.PlotConfig, outputDir: string, j: Job)
    requires PlainConfig(cfg) && PlainValue(j.metric) && PlainValue(j.field)
    ensures ValueAfter(OlderArgList(cfg, outputDir, j), "--level_or_accum") == Some(j.level)
  {
    var head := ["--mv_host", cfg.mvHost, "--mv_database_name", cfg.mvDatabaseName, "--model_names"]
                + cfg.modelNames + ["--vx_stat", j.metric, "--fcst_init_info"] + cfg.fcstInitInfo
                + ["--fcst_len_hrs", cfg.fcstLenHrs, "--fcst_field", j.field];
    var rest := ["--level_or_accum", j.level, "--threshold", j.thresh, "--mv_output_dir", outputDir];
    assert OlderArgList(cfg, outputDir, j) == head + rest;
    FlagNotPlain(cfg.modelNames, "--level_or_accum");
    FlagNotPlain(cfg.fcstInitInfo, "--level_or_accum");
    ValueAfterSkips(head, rest, "--level_or_accum");
  }

  /** The plotting script reads the threshold of the call back from its
      argument list. */
  lemma OlderArgListThresh(cfg: MultiDriver.PlotConfig, outputDir: string, j: Job)
    requires PlainConfig(cfg) && PlainValue(j.metric) && PlainValue(j.field) && PlainValue(j.level)
    ensures ValueAfter(OlderArgList(cfg, outputDir, j), "--threshold") == Some(j.thresh)
  {
    var head := ["--mv_host", cfg.mvHost, "--mv_database_name", cfg.mvDatabaseName, "--model_names"]
                + cfg.modelNames + ["--vx_stat", j.metric, "--fcst_init_info"] + cfg.fcstInitInfo
                + ["--fcst_len_hrs", cfg.fcstLenHrs, "--fcst_field", j.field, "--level_or_accum", j.level];
    var rest := ["--threshold", j.thresh, "--mv_output_dir", outputDir];
    assert OlderArgList(cfg, outputDir, j) == head + rest;
    FlagNotPlain(cfg.modelNames, "--threshold");
    FlagNotPlain(cfg.fcstInitInfo, "--threshold");
    ValueAfterSkips(head, rest, "--threshold");
  }

  /** One more item of `b` taken after `a`. */
  lemma AppendTakeOneMore<T>(a: seq<T>, b: seq<T>, k: nat)
    requires k < |b|
    ensures a + b[..k + 1] == (a + b[..k]) + [b[k]]
  {
    assert b[..k + 1] == b[..k] + [b[k]];
  }

  /** os.path.splitext(xml)[0] + '.png' of the xml path one call returns. */
  function OlderImageFor(env: MultiDriver.Env, cfg: MultiDriver.PlotConfig, outputDir: string, j: Job): string
  {
    MultiDriver.ImageOf(env.render(OlderArgList(cfg, outputDir, j)))
  }

  /** The png expected from each call, in call order. */
  function OlderImages(env: MultiDriver.Env, cfg: MultiDriver.PlotConfig, outputDir: string,
                       jobs: seq<Job>): (r: seq<string>)
    ensures |r| == |jobs|
  {
    seq(|jobs|, i requires 0 <= i < |jobs| => OlderImageFor(env, cfg, outputDir, jobs[i]))
  }

  lemma OlderImagesSnoc(env: MultiDriver.Env, cfg: MultiDriver.PlotConfig, outputDir: string,
                        jobs: seq<Job>, j: Job)
    ensures OlderImages(env, cfg, outputDir, jobs + [j])
            == OlderImages(env, cfg, outputDir, jobs) + [OlderImageFor(env, cfg, outputDir, j)]
  {
  }

  /** The counters use the ordered_plots directory under the output one. */
  function FlagsOf(args: OlderArgs): MultiDriver.RunFlags
  {
    MultiDriver.RunFlags(args.outputDir, false, args.createOrderedPlots)
  }

  /** The counters and copies of the older driver: the Tally of the images
      of the calls made for the selected stats. */
  function OlderTally(env: MultiDriver.Env, cfg: MultiDriver.PlotConfig, args: OlderArgs)
    : MultiDriver.Tally
  {
    MultiDriver.TallyOf(OlderImages(env, cfg, args.outputDir,
                                    SelectedJobs(cfg.tree, s => OlderSelected(args, s))),
                        env.isFile, FlagsOf(args))
  }

  /** One pass of the innermost loop: one call of the plotting script and
      the counters and copy that follow it. */
  method OlderCall(env: MultiDriver.Env, cfg: MultiDriver.PlotConfig, args: OlderArgs, j: Job,
                   calls0: nat, images0: nat, ghost missing0: seq<string>, copies0: seq<MultiDriver.Copy>)
    returns (numMvCalls: nat, numImagesGenerated: nat, ghost missing: seq<string>,
             copies: seq<MultiDriver.Copy>)
    ensures MultiDriver.Tally(numMvCalls, numImagesGenerated, missing, copies)
            == MultiDriver.TallyStep(MultiDriver.Tally(calls0, images0, missing0, copies0),
                                     OlderImageFor(env, cfg, args.outputDir, j), env.isFile, FlagsOf(args))
  {
    numMvCalls, numImagesGenerated, missing, copies := calls0, images0, missing0, copies0;
    var argsList := OlderArgList(cfg, args.outputDir, j);
    numMvCalls := numMvCalls + 1;
    var outputXmlFp := env.render(argsList);
    var outputImageFp := MultiDriver.ImageOf(outputXmlFp);
    var outputImageFn := BaseName(outputImageFp);
    if env.isFile(outputImageFp) {
      numImagesGenerated := numImagesGenerated + 1;
    } else {
      missing := missing + [outputImageFn];
    }
    if env.isFile(outputImageFp) && args.createOrderedPlots {
      copies := copies + [MultiDriver.Copy(numMvCalls, outputImageFp)];
    }
  }

  /** The loops over the plots of one selected stat, continuing the counts. */
  method PlotOlderStat(env: MultiDriver.Env, cfg: MultiDriver.PlotConfig, args: OlderArgs,
                       ghost done: seq<Job>, js: seq<Job>, calls0: nat, images0: nat,
                       ghost missing0: seq<string>, copies0: seq<MultiDriver.Copy>)
    returns (numMvCalls: nat, numImagesGenerated: nat, ghost missing: seq<string>,
             copies: seq<MultiDriver.Copy>)
    requires MultiDriver.Tally(calls0, images0, missing0, copies0)
             == MultiDriver.TallyOf(OlderImages(env, cfg, args.outputDir, done), env.isFile, FlagsOf(args))
    ensures MultiDriver.Tally(numMvCalls, numImagesGenerated, missing, copies)
            == MultiDriver.TallyOf(OlderImages(env, cfg, args.outputDir, done + js), env.isFile, FlagsOf(args))
  {
    numMvCalls, numImagesGenerated, missing, copies := calls0, images0, missing0, copies0;
    assert done + js[..0] == done;
    for k := 0 to |js|
      invariant MultiDriver.Tally(numMvCalls, numImagesGenerated, missing, copies)
                == MultiDriver.TallyOf(OlderImages(env, cfg, args.outputDir, done + js[..k]),
                                       env.isFile, FlagsOf(args))
    {
      numMvCalls, numImagesGenerated, missing, copies :=
        OlderCall(env, cfg, args, js[k], numMvCalls, numImagesGenerated, missing, copies);
      OlderImagesSnoc(env, cfg, args.outputDir, done + js[..k], js[k]);
      MultiDriver.TallySnoc(OlderImages(env, cfg, args.outputDir, done + js[..k]),
                            OlderImageFor(env, cfg, args.outputDir, js[k]), env.isFile, FlagsOf(args));
      AppendTakeOneMore(done, js, k);
    }
    assert js[..|js|] == js;
  }

  /** make_mv_vx_plots of the older driver, after its directory handling:
      num_mv_calls, num_images_generated and the ordered copies made. */
  method MakeMvVxPlotsOlder(env: MultiDriver.Env, cfg: MultiDriver.PlotConfig, args: OlderArgs)
    returns (numMvCalls: nat, numImagesGenerated: nat, copies: seq<MultiDriver.Copy>)
    ensures numMvCalls == OlderTally(env, cfg, args).calls
    ensures numImagesGenerated == OlderTally(env, cfg, args).images
    ensures copies == OlderTally(env, cfg, args).copies
  {
    var keep := s => OlderSelected(args, s);
    numMvCalls, numImagesGenerated, copies := 0, 0, [];
    ghost var missing: seq<string> := [];
    var t := cfg.tree;
    for i := 0 to |t|
      invariant MultiDriver.Tally(numMvCalls, numImagesGenerated, missing, copies)
                == MultiDriver.TallyOf(OlderImages(env, cfg, args.outputDir, SelectedJobs(t[..i], keep)),
                                       env.isFile, FlagsOf(args))
    {
      var stat := t[i].metric;
      ghost var done := SelectedJobs(t[..i], keep);
      SelectedJobsTakeOneMore(t, i, keep);
      if stat in args.excludeStats {
        assert StatJobs(t[i], keep) == [];
        assert done + [] == done;
      } else if !(|args.includeStats| > 0) || (|args.includeStats| > 0 && stat in args.includeStats) {
        var js := FieldJobs(stat, t[i].fields, true);
        assert StatJobs(t[i], keep) == js;
        numMvCalls, numImagesGenerated, missing, copies :=
          PlotOlderStat(env, cfg, args, done, js, numMvCalls, numImagesGenerated, missing, copies);
      } else {
        assert StatJobs(t[i], keep) == [];
        assert done + [] == done;
      }
    }
    assert t[..|t|] == t;
  }

  /** The number of calls is the number of thresholds listed under the
      selected stats, and an image is counted only for a call whose png
      exists, so never more images than calls. */
  lemma OlderCounts(env: MultiDriver.Env, cfg: MultiDriver.PlotConfig, args: OlderArgs)
    ensures OlderTally(env, cfg, args).calls == ThreshCount(cfg.tree, s => OlderSelected(args, s))
    ensures OlderTally(env, cfg, args).images <= OlderTally(env, cfg, args).calls
  {
    var keep := s => OlderSelected(args, s);
    var images := OlderImages(env, cfg, args.outputDir, SelectedJobs(cfg.tree, keep));
    MultiDriver.TallyCounts(images, env.isFile, FlagsOf(args));
    SelectedJobsCount(cfg.tree, keep);
  }

  /** A call is made for a (stat, field, level, threshold) path exactly
      when the path is in the configuration and the stat is selected; an
      excluded stat is never plotted. */
  lemma OlderCallsIff(cfg: MultiDriver.PlotConfig, args: OlderArgs, j: Job)
    ensures j in SelectedJobs(cfg.tree, s => OlderSelected(args, s)) <==>
              j.metric !in args.excludeStats
              && (args.includeStats == [] || j.metric in args.includeStats)
              && HasThresh(cfg.tree, j.metric, j.field, j.level, j.thresh)
  {
    SelectedJobsIff(cfg.tree, s => OlderSelected(args, s), j);
  }

  /** The ordered copies are made only with --create_ordered_plots, one per
      image counted, and never overwrite one another. */
  lemma OlderCopies(env: MultiDriver.Env, cfg: MultiDriver.PlotConfig, args: OlderArgs)
    ensures args.createOrderedPlots ==>
              |OlderTally(env, cfg, args).copies| == OlderTally(env, cfg, args).images
    ensures !args.createOrderedPlots ==> OlderTally(env, cfg, args).copies == []
    ensures var cs := OlderTally(env, cfg, args).copies;
            forall i, k :: 0 <= i < k < |cs| ==> MultiDriver.CopyTarget(FlagsOf(args), cs[i]) != MultiDriver.CopyTarget(FlagsOf(args), cs[k])
  {
    var images := OlderImages(env, cfg, args.outputDir,
                              SelectedJobs(cfg.tree, s => OlderSelected(args, s)));
    MultiDriver.TallyCopyCount(images, env.isFile, FlagsOf(args));
    MultiDriver.CopyTargetsDistinct(images, env.isFile, FlagsOf(args));
  }

  // ----------------------------------------------- the python_utils driver

  /** --exclude_stats takes one value (no nargs) and defaults to an empty
      list. */
  datatype ExcludeArg = ExcludeDefault | ExcludeGiven(value: string)

  /** The choices argparse accepts for --exclude_stats. */
  const StatChoices: seq<string> := ["auc", "bias", "brier", "fbias", "rely", "rhist", "ss"]

  /** `stat in args.exclude_stats`: membership in the empty default list,
      or substring containment in the single string given. */
  predicate Skipped(ex: ExcludeArg, stat: string)
  {
    match ex
    case ExcludeDefault => false
    case ExcludeGiven(s) => Contains(s, stat)
  }

  lemma ContainsSelf(s: string)
    ensures Contains(s, s)
  {
    assert StartsWith(s, s);
  }

  /** Excluding "fbias" also skips "bias". */
  lemma FbiasSkipsBias()
    ensures Skipped(ExcludeGiven("fbias"), "bias")
  {
    assert "fbias"[1..] == "bias";
    ContainsSelf("bias");
  }

  /** The given stat is always skipped. */
  lemma GivenSkipped(s: string)
    ensures Skipped(ExcludeGiven(s), s)
  {
    ContainsSelf(s);
  }

  /** Nothing is skipped by default. */
  lemma DefaultSkipsNothing(stat: string)
    ensures !Skipped(ExcludeDefault, stat)
  {
  }

  /** A stat longer than the excluded one is never skipped. */
  lemma {:induction false} LongerNotSkipped(s: string, stat: string)
    requires |stat| > |s|
    ensures !Skipped(ExcludeGiven(s), stat)
    decreases |s|
  {
    if |s| > 0 {
      LongerNotSkipped(s[1..], stat);
    }
  }

  /** A text whose first letter differs does not start with the other. */
  lemma FirstLetterDiffers(s: string, p: string)
    requires |s| > 0 && |p| > 0 && s[0] != p[0]
    ensures !StartsWith(s, p)
  {
    if |p| <= |s| {
      assert s[..|p|][0] == s[0];
    }
  }

  /** "bias" is skipped by "bias" and "fbias" only, of the accepted choices. */
  lemma BiasSkippedBy(s: string)
    requires s in StatChoices
    ensures Skipped(ExcludeGiven(s), "bias") <==> s == "bias" || s == "fbias"
  {
    if s == "bias" {
      GivenSkipped(s);
    } else if s == "fbias" {
      FbiasSkipsBias();
    } else if s == "auc" || s == "ss" {
      LongerNotSkipped(s, "bias");
    } else if s == "brier" {
      BrierKeepsBias();
    } else if s == "rely" {
      RelyKeepsBias();
    } else {
      RhistKeepsBias();
    }
  }

  lemma BrierKeepsBias()
    ensures !Skipped(ExcludeGiven("brier"), "bias")
  {
    FirstLetterDiffers("rier", "bias");
    assert "brier"[1..] == "rier" && "rier"[1..] == "ier";
    LongerNotSkipped("ier", "bias");
  }

  lemma RelyKeepsBias()
    ensures !Skipped(ExcludeGiven("rely"), "bias")
  {
    FirstLetterDiffers("rely", "bias");
    assert "rely"[1..] == "ely";
    LongerNotSkipped("ely", "bias");
  }

  lemma RhistKeepsBias()
    ensures !Skipped(ExcludeGiven("rhist"), "bias")
  {
    FirstLetterDiffers("rhist", "bias");
    FirstLetterDiffers("hist", "bias");
    assert "rhist"[1..] == "hist" && "hist"[1..] == "ist";
    LongerNotSkipped("ist", "bias");
  }


  /** The entries of the plot configuration file this driver reads. */
  datatype UtilsConfig = UtilsConfig(modelNames: seq<string>, fcstInitInfo: seq<string>,
                                     fcstLenHrs: string, tree: Tree)

  /** The argument list handed to plot_vx_metviewer for one call. */
  function UtilsArgList(cfg: UtilsConfig, outputDir: string, j: Job): (r: seq<string>)
    ensures |r| == |cfg.modelNames| + |cfg.fcstInitInfo| + 14
  {
    ["--model_names"] + cfg.modelNames
    + ["--stat", j.metric, "--fcst_init_info"] + cfg.fcstInitInfo
    + ["--fcst_len_hrs", cfg.fcstLenHrs, "--fcst_var", j.field, "--level_or_accum", j.level,
       "--threshold", j.thresh, "--mv_output_dir", outputDir]
  }

  /** The plotting script reads the stat and the forecast variable of the
      call back from its argument list. */
  lemma UtilsArgListStatVar(cfg: UtilsConfig, outputDir: string, j: Job)
    requires (forall x :: x in cfg.modelNames ==> PlainValue(x))
    requires (forall x :: x in cfg.fcstInitInfo ==> PlainValue(x))
    requires PlainValue(cfg.fcstLenHrs) && PlainValue(j.metric)
    ensures ValueAfter(UtilsArgList(cfg, outputDir, j), "--stat") == Some(j.metric)
    ensures ValueAfter(UtilsArgList(cfg, outputDir, j), "--fcst_var") == Some(j.field)
  {
    var head := ["--model_names"] + cfg.modelNames;
    var mid := ["--stat", j.metric, "--fcst_init_info"] + cfg.fcstInitInfo + ["--fcst_len_hrs", cfg.fcstLenHrs];
    var tail := ["--fcst_var", j.field, "--level_or_accum", j.level,
                 "--threshold", j.thresh, "--mv_output_dir", outputDir];
    assert UtilsArgList(cfg, outputDir, j) == head + (mid + tail);
    FlagNotPlain(cfg.modelNames, "--stat");
    ValueAfterSkips(head, mid + tail, "--stat");
    assert UtilsArgList(cfg, outputDir, j) == (head + mid) + tail;
    FlagNotPlain(cfg.modelNames, "--fcst_var");
    FlagNotPlain(cfg.fcstInitInfo, "--fcst_var");
    ValueAfterSkips(head + mid, tail, "--fcst_var");
  }

  /** The argument lists of the calls, in call order. */
  function UtilsCalls(cfg: UtilsConfig, outputDir: string, jobs: seq<Job>): (r: seq<seq<string>>)
    ensures |r| == |jobs|
  {
    seq(|jobs|, i requires 0 <= i < |jobs| => UtilsArgList(cfg, outputDir, jobs[i]))
  }

  lemma UtilsCallsSnoc(cfg: UtilsConfig, outputDir: string, jobs: seq<Job>, j: Job)
    ensures UtilsCalls(cfg, outputDir, jobs + [j]) == UtilsCalls(cfg, outputDir, jobs) + [UtilsArgList(cfg, outputDir, j)]
  {
  }

  /** The loops over the plots of one stat that is not skipped. */
  method UtilsStatCalls(cfg: UtilsConfig, outputDir: string, ghost done: seq<Job>, js: seq<Job>,
                        calls0: seq<seq<string>>)
    returns (calls: seq<seq<string>>)
    requires calls0 == UtilsCalls(cfg, outputDir, done)
    ensures calls == UtilsCalls(cfg, outputDir, done + js)
  {
    calls := calls0;
    assert done + js[..0] == done;
    for k := 0 to |js|
      invariant calls == UtilsCalls(cfg, outputDir, done + js[..k])
    {
      var argsList := UtilsArgList(cfg, outputDir, js[k]);
      calls := calls + [argsList];
      UtilsCallsSnoc(cfg, outputDir, done + js[..k], js[k]);
      AppendTakeOneMore(done, js, k);
    }
    assert js[..|js|] == js;
  }

  /** make_mv_vx_plots of the python_utils driver: the argument list of
      every call to plot_vx_metviewer, in call order. */
  method MakeMvVxPlotsUtils(cfg: UtilsConfig, outputDir: string, ex: ExcludeArg)
    returns (calls: seq<seq<string>>)
    ensures calls == UtilsCalls(cfg, outputDir, SelectedJobs(cfg.tree, s => !Skipped(ex, s)))
  {
    var keep := s => !Skipped(ex, s);
    calls := [];
    var t := cfg.tree;
    for i := 0 to |t|
      invariant calls == UtilsCalls(cfg, outputDir, SelectedJobs(t[..i], keep))
    {
      var stat := t[i].metric;
      ghost var done := SelectedJobs(t[..i], keep);
      SelectedJobsTakeOneMore(t, i, keep);
      if Skipped(ex, stat) {
        assert done + [] == done;
      } else {
        var js := FieldJobs(stat, t[i].fields, true);
        calls := UtilsStatCalls(cfg, outputDir, done, js, calls);
      }
    }
    assert t[..|t|] == t;
  }

  /** A call is made for a (stat, field, level, threshold) path exactly
      when the path is in the configuration and the stat is not skipped. */
  lemma UtilsCallsIff(cfg: UtilsConfig, ex: ExcludeArg, j: Job)
    ensures j in SelectedJobs(cfg.tree, s => !Skipped(ex, s)) <==>
              !Skipped(ex, j.metric) && HasThresh(cfg.tree, j.metric, j.field, j.level, j.thresh)
  {
    SelectedJobsIff(cfg.tree, s => !Skipped(ex, s), j);
  }

  /** Excluding "fbias" plots no "bias" either. */
  lemma FbiasDropsBiasPlots(cfg: UtilsConfig, j: Job)
    requires j.metric == "bias"
    ensures j !in SelectedJobs(cfg.tree, s => !Skipped(ExcludeGiven("fbias"), s))
  {
    UtilsCallsIff(cfg, ExcludeGiven("fbias"), j);
    FbiasSkipsBias();
  }
}
