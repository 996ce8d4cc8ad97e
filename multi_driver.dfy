/**
 * The dispatch loop of make_multi_mv_vx_plots, its closing warnings about
 * include-only values that no plot uses, and the function and main()
 * around the reduction: database and threshold-list checks, the option
 * clean-up, the reduction itself and the exclusivity checks of main().
 *
 * Rendering and running one plot (make_single_mv_vx_plot, which writes an
 * xml and calls METviewer) and asking whether a png exists are the two
 * effects of the loop; both are oracles the caller passes in.
 */
module MultiDriver {

  import opened Wrappers
  import opened PyStr
  import opened PySeq
  import opened PlotTree
  import opened PlotFilters
  import opened PlotOptions
  import opened MultiPlots

  /** The entries of the plot configuration file the script reads. */
  datatype PlotConfig = PlotConfig(mvHost: string, mvDatabaseName: string, modelNames: seq<string>,
                                   fcstInitInfo: seq<string>, fcstLenHrs: string, tree: Tree)

  datatype RunFlags = RunFlags(outputDir: string, makeVxMetricSubdirs: bool, createOrderedPlots: bool)

  /** render: make_single_mv_vx_plot on an argument list, giving the path
      of the xml it wrote; isFile: os.path.isfile. */
  datatype Env = Env(render: seq<string> -> string, isFile: string -> bool)

  /** The ordered copy made after call `call`: shutil.copy of its image
      `source` to CopyTarget. */
  datatype Copy = Copy(call: nat, source: string)

  // ------------------------------------------------------ one plot call

  function OutputDirFor(flags: RunFlags, metric: string): string
  {
    if flags.makeVxMetricSubdirs then PathJoin(flags.outputDir, metric) else flags.outputDir
  }

  /** The argument list handed to make_single_mv_vx_plot for one job. */
  function ArgList(cfg: PlotConfig, flags: RunFlags, j: Job): seq<string>
  {
    ["--mv_host", cfg.mvHost, "--mv_database_name", cfg.mvDatabaseName, "--model_names"]
    + cfg.modelNames
    + ["--vx_metric", j.metric, "--fcst_init_info"] + cfg.fcstInitInfo
    + ["--fcst_len_hrs", cfg.fcstLenHrs, "--fcst_field", j.field, "--level_or_accum", j.level,
       "--threshold", j.thresh, "--mv_output_dir", OutputDirFor(flags, j.metric)]
  }

  /** os.path.splitext(xml)[0] + '.png'. */
  function ImageOf(xml: string): string
  {
    SplitExtRoot(xml) + ".png"
  }

  function ImageFor(env: Env, cfg: PlotConfig, flags: RunFlags, j: Job): string
  {
    ImageOf(env.render(ArgList(cfg, flags, j)))
  }

  /** The image path of each call, in call order. */
  function ImagesOf(env: Env, cfg: PlotConfig, flags: RunFlags, jobs: seq<Job>): (r: seq<string>)
    ensures |r| == |jobs|
  {
    if |jobs| == 0 then []
    else ImagesOf(env, cfg, flags, jobs[..|jobs| - 1]) + [ImageFor(env, cfg, flags, jobs[|jobs| - 1])]
  }

  /** The subdirectory of the output directory that holds the ordered copies. */
  const OrderedPlotsSubdir := "ordered_plots"

  function OrderedDir(flags: RunFlags): string
  {
    PathJoin(flags.outputDir, OrderedPlotsSubdir)
  }

  /** '_'.join([f'p{call:03}', fn]). */
  function OrderedName(call: nat, fn: string): string
  {
    "p" + Pad3(call) + "_" + fn
  }

  /** Where the ordered copy goes: ordered_plots/p<call, 3 digits>_<image name>. */
  function CopyTarget(flags: RunFlags, c: Copy): string
  {
    PathJoin(OrderedDir(flags), OrderedName(c.call, BaseName(c.source)))
  }

  /** Distinct call numbers give distinct ordered names, whatever the
      image names: the padded numbers are digit strings that denote the
      call numbers, and the '_' after the shorter one meets a digit of the
      longer one. */
  lemma OrderedNameDistinct(a: nat, b: nat, fa: string, fb: string)
    requires a != b
    ensures OrderedName(a, fa) != OrderedName(b, fb)
  {
    Pad3Value(a);
    Pad3Value(b);
    TaggedDigitsDistinct(Pad3(a), Pad3(b), fa, fb);
  }

  // ------------------------------------------------------ the counters

  /** num_mv_calls, num_images_generated, missing_image_fns and the copies
      made, as they stand after a run of the loop. */
  datatype Tally = Tally(calls: nat, images: nat, missing: seq<string>, copies: seq<Copy>)

  /** The counters after the loop has handled calls whose images are
      `images`, one call at a time. */
  function TallyOf(images: seq<string>, isFile: string -> bool, flags: RunFlags): Tally
  {
    if |images| == 0 then Tally(0, 0, [], [])
    else TallyStep(TallyOf(images[..|images| - 1], isFile, flags), images[|images| - 1], isFile, flags)
  }

  /** The counters after one more call, whose image is `image`. */
  function TallyStep(prev: Tally, image: string, isFile: string -> bool, flags: RunFlags): Tally
  {
    var call := prev.calls + 1;
    if isFile(image) then
      var copy := Copy(call, image);
      Tally(call, prev.images + 1, prev.missing,
            prev.copies + if flags.createOrderedPlots then [copy] else [])
    else
      Tally(call, prev.images, prev.missing + [BaseName(image)], prev.copies)
  }

  lemma TallySnoc(images: seq<string>, image: string, isFile: string -> bool, flags: RunFlags)
    ensures TallyOf(images + [image], isFile, flags) == TallyStep(TallyOf(images, isFile, flags), image, isFile, flags)
  {
    assert (images + [image])[..|images|] == images;
  }

  /** One call per job; each call either counts an image or records a
      missing one, so the two add up to the number of calls, and the count
      of images is the number of calls whose png exists. */
  lemma TallyCounts(images: seq<string>, isFile: string -> bool, flags: RunFlags)
    ensures TallyOf(images, isFile, flags).calls == |images|
    ensures TallyOf(images, isFile, flags).images + |TallyOf(images, isFile, flags).missing| == |images|
    ensures TallyOf(images, isFile, flags).images == |Filter(images, isFile)|
  {
    TallyCallCounts(images, isFile, flags);
    TallyImagesPresent(images, isFile, flags);
  }

  lemma {:induction false} TallyCallCounts(images: seq<string>, isFile: string -> bool, flags: RunFlags)
    ensures TallyOf(images, isFile, flags).calls == |images|
    ensures TallyOf(images, isFile, flags).images + |TallyOf(images, isFile, flags).missing| == |images|
  {
    if |images| > 0 {
      TallyCallCounts(images[..|images| - 1], isFile, flags);
    }
  }

  lemma {:induction false} TallyImagesPresent(images: seq<string>, isFile: string -> bool, flags: RunFlags)
    ensures TallyOf(images, isFile, flags).images == |Filter(images, isFile)|
  {
    if |images| > 0 {
      var init := images[..|images| - 1];
      var last := images[|images| - 1];
      TallyImagesPresent(init, isFile, flags);
      assert images == init + [last];
      FilterSnoc(init, last, isFile);
    }
  }

  /** Some call's image does not exist and has base name fn. */
  ghost predicate MissingImage(images: seq<string>, isFile: string -> bool, fn: string)
  {
    exists im :: im in images && !isFile(im) && BaseName(im) == fn
  }

  lemma MissingImageSnoc(images: seq<string>, last: string, isFile: string -> bool, fn: string)
    ensures MissingImage(images + [last], isFile, fn)
            <==> MissingImage(images, isFile, fn) || (!isFile(last) && BaseName(last) == fn)
  {
    SomeSnoc(images, last, im => !isFile(im) && BaseName(im) == fn);
  }

  /** missing_image_fns names exactly the images of the calls whose png
      does not exist. */
  lemma {:induction false} TallyMissing(images: seq<string>, isFile: string -> bool, flags: RunFlags)
    ensures forall fn :: fn in TallyOf(images, isFile, flags).missing <==> MissingImage(images, isFile, fn)
  {
    if |images| > 0 {
      var init := images[..|images| - 1];
      var last := images[|images| - 1];
      TallyMissing(init, isFile, flags);
      assert images == init + [last];
      TallySnoc(init, last, isFile, flags);
      var missing := TallyOf(init, isFile, flags).missing + if isFile(last) then [] else [BaseName(last)];
      assert TallyOf(images, isFile, flags).missing == missing;
      forall fn ensures fn in missing <==> MissingImage(images, isFile, fn) {
        MissingImageSnoc(init, last, isFile, fn);
      }
    }
  }

  /** The copy made after call n is of call n's image, which exists, and
      its name starts with n. */
  predicate CopyOfCall(images: seq<string>, isFile: string -> bool, flags: RunFlags, c: Copy)
  {
    1 <= c.call <= |images| && c.source == images[c.call - 1] && isFile(c.source)
  }

  /** A copy is made only when ordered plots are asked for, and then one
      per image that exists. */
  lemma {:induction false} TallyCopyCount(images: seq<string>, isFile: string -> bool, flags: RunFlags)
    ensures flags.createOrderedPlots ==>
              |TallyOf(images, isFile, flags).copies| == TallyOf(images, isFile, flags).images
    ensures !flags.createOrderedPlots ==> TallyOf(images, isFile, flags).copies == []
  {
    if |images| > 0 {
      TallyCopyCount(images[..|images| - 1], isFile, flags);
    }
  }

  /** Each copy is of the image of the call it is named after, an image
      that exists, and copies come in call order. */
  lemma {:induction false} TallyCopies(images: seq<string>, isFile: string -> bool, flags: RunFlags)
    ensures var cs := TallyOf(images, isFile, flags).copies;
            (forall i :: 0 <= i < |cs| ==> CopyOfCall(images, isFile, flags, cs[i]))
            && (forall i, k :: 0 <= i < k < |cs| ==> cs[i].call < cs[k].call)
  {
    if |images| > 0 {
      var init := images[..|images| - 1];
      var last := images[|images| - 1];
      assert images == init + [last];
      TallyCopies(init, isFile, flags);
      TallyCallCounts(init, isFile, flags);
      TallySnoc(init, last, isFile, flags);
      var prev := TallyOf(init, isFile, flags).copies;
      var call := |images|;
      var more := if isFile(last) && flags.createOrderedPlots
                  then [Copy(call, last)]
                  else [];
      var cs := prev + more;
      assert TallyOf(images, isFile, flags).copies == cs;
      forall i | 0 <= i < |prev| ensures CopyOfCall(images, isFile, flags, prev[i]) && prev[i].call < call {
        assert CopyOfCall(init, isFile, flags, prev[i]);
        assert images[prev[i].call - 1] == init[prev[i].call - 1];
      }
      assert forall i :: 0 <= i < |more| ==> CopyOfCall(images, isFile, flags, more[i]) && more[i].call == call;
    }
  }

  /** The ordered copies never overwrite one another. */
  lemma CopyTargetsDistinct(images: seq<string>, isFile: string -> bool, flags: RunFlags)
    ensures var cs := TallyOf(images, isFile, flags).copies;
            forall i, k :: 0 <= i < k < |cs| ==> CopyTarget(flags, cs[i]) != CopyTarget(flags, cs[k])
  {
    var cs := TallyOf(images, isFile, flags).copies;
    TallyCopies(images, isFile, flags);
    forall i, k | 0 <= i < k < |cs| ensures CopyTarget(flags, cs[i]) != CopyTarget(flags, cs[k]) {
      assert CopyOfCall(images, isFile, flags, cs[i]) && CopyOfCall(images, isFile, flags, cs[k]);
      var ni := OrderedName(cs[i].call, BaseName(cs[i].source));
      var nk := OrderedName(cs[k].call, BaseName(cs[k].source));
      OrderedNameDistinct(cs[i].call, cs[k].call, BaseName(cs[i].source), BaseName(cs[k].source));
      assert ni[0] == 'p' && nk[0] == 'p';
      if CopyTarget(flags, cs[i]) == CopyTarget(flags, cs[k]) {
        PathJoinInjective(OrderedDir(flags), ni, nk);
      }
    }
  }

  /** The dispatch loop over the reduced configuration, flattened to the
      sequence of its calls. */
  method Dispatch(env: Env, cfg: PlotConfig, flags: RunFlags, jobs: seq<Job>)
    returns (numMvCalls: nat, numImagesGenerated: nat, missingImageFns: seq<string>, copies: seq<Copy>)
    ensures Tally(numMvCalls, numImagesGenerated, missingImageFns, copies)
            == TallyOf(ImagesOf(env, cfg, flags, jobs), env.isFile, flags)
  {
    numMvCalls, numImagesGenerated, missingImageFns, copies := 0, 0, [], [];
    ghost var images: seq<string> := [];
    for i := 0 to |jobs|
      invariant images == ImagesOf(env, cfg, flags, jobs[..i])
      invariant Tally(numMvCalls, numImagesGenerated, missingImageFns, copies) == TallyOf(images, env.isFile, flags)
    {
      var image;
      numMvCalls, numImagesGenerated, missingImageFns, copies, image :=
        PlotOne(env, cfg, flags, jobs[i], numMvCalls, numImagesGenerated, missingImageFns, copies);
      TallySnoc(images, image, env.isFile, flags);
      assert jobs[..i + 1][..i] == jobs[..i];
      images := images + [image];
    }
    assert jobs[..|jobs|] == jobs;
  }

  /** One pass of the dispatch loop: the call, the png check and the
      ordered copy. */
  method PlotOne(env: Env, cfg: PlotConfig, flags: RunFlags, j: Job,
                 calls: nat, images: nat, missing: seq<string>, copies: seq<Copy>)
    returns (numMvCalls: nat, numImagesGenerated: nat, missingImageFns: seq<string>, copies': seq<Copy>,
             outputImageFp: string)
    ensures outputImageFp == ImageFor(env, cfg, flags, j)
    ensures Tally(numMvCalls, numImagesGenerated, missingImageFns, copies')
            == TallyStep(Tally(calls, images, missing, copies), outputImageFp, env.isFile, flags)
  {
    numMvCalls, numImagesGenerated, missingImageFns, copies' := calls, images, missing, copies;
    var argsList := ArgList(cfg, flags, j);
    numMvCalls := numMvCalls + 1;
    var outputXmlFp := env.render(argsList);
    outputImageFp := ImageOf(outputXmlFp);
    var outputImageFn := BaseName(outputImageFp);
    if env.isFile(outputImageFp) {
      numImagesGenerated := numImagesGenerated + 1;
    } else {
      missingImageFns := missingImageFns + [outputImageFn];
    }
    if env.isFile(outputImageFp) && flags.createOrderedPlots {
      copies' := copies' + [Copy(numMvCalls, outputImageFp)];
    }
  }

  // ---------------------------------- include-only values no plot uses

  /** Job j plots value v of axis a.  A threshold counts only under a
      metric that needs one: the others are plotted with the empty one. */
  predicate Carries(needs: map<string, bool>, j: Job, a: Axis, v: string)
  {
    match a
    case MetricAxis => j.metric == v
    case FieldAxis => j.field == v
    case LevelAxis => j.level == v
    case ThreshAxis => j.thresh == v && NeedsThresh(needs, j.metric)
  }

  /** The warnings of one count loop over the reduced tree, in the order of
      the option's values. */
  function Unmatched(t: Tree, a: Axis, vs: seq<string>): seq<Warning>
  {
    if |vs| == 0 then []
    else Unmatched(t, a, vs[..|vs| - 1])
         + if Occurs(t, a, vs[|vs| - 1]) then [] else [NotInReducedConfig(a, vs[|vs| - 1])]
  }

  lemma {:induction false} UnmatchedIff(t: Tree, a: Axis, vs: seq<string>)
    ensures forall w :: w in Unmatched(t, a, vs) <==>
              w.NotInReducedConfig? && w.axis == a && w.value in vs && !Occurs(t, a, w.value)
  {
    if |vs| > 0 {
      var init := vs[..|vs| - 1];
      UnmatchedIff(t, a, init);
      assert vs == init + [vs[|vs| - 1]];
    }
  }

  /** The loop over one include-only list, warning for each value its count
      loop does not find in the reduced tree. */
  method WarnUnmatched(t: Tree, a: Axis, vs: seq<string>) returns (ws: seq<Warning>)
    ensures ws == Unmatched(t, a, vs)
  {
    ws := [];
    for i := 0 to |vs|
      invariant ws == Unmatched(t, a, vs[..i])
    {
      assert vs[..i + 1][..i] == vs[..i];
      if !Occurs(t, a, vs[i]) {
        ws := ws + [NotInReducedConfig(a, vs[i])];
      }
    }
    assert vs[..|vs|] == vs;
  }

  /** Every level of a tree without threshold-less levels gives a call. */
  lemma LevelHasJob(t: Tree, needs: map<string, bool>, e: MetricEntry, fe: FieldEntry, le: LevelEntry)
    requires NoThreshlessLevels(t, needs)
    requires e in t && fe in e.fields && le in fe.levels
    ensures Job(e.metric, fe.field, le.level, JobThreshes(le, NeedsThresh(needs, e.metric))[0])
            in Jobs(t, needs)
  {
    var ths := JobThreshes(le, NeedsThresh(needs, e.metric));
    assert |ths| > 0;
    JobsIff(t, needs, Job(e.metric, fe.field, le.level, ths[0]));
  }

  /** On a pruned tree, a value occurs on an axis exactly when some call
      plots it, so the closing warnings name exactly the include-only
      values no plot uses. */
  lemma OccursIffCarried(t: Tree, needs: map<string, bool>, a: Axis, v: string)
    requires NoEmptyFields(t) && NoThreshlessLevels(t, needs) && ThreshesOnlyWhereNeeded(t, needs)
    ensures Occurs(t, a, v) <==> exists j :: j in Jobs(t, needs) && Carries(needs, j, a, v)
  {
    if exists j :: j in Jobs(t, needs) && Carries(needs, j, a, v) {
      var j :| j in Jobs(t, needs) && Carries(needs, j, a, v);
      CarriedOccurs(t, needs, a, j);
    }
    if Occurs(t, a, v) {
      OccursCarried(t, needs, a, v);
    }
  }

  lemma CarriedOccurs(t: Tree, needs: map<string, bool>, a: Axis, j: Job)
    requires j in Jobs(t, needs)
    ensures Carries(needs, j, a, Sel4(j, a)) ==> Occurs(t, a, Sel4(j, a))
  {
    JobsIff(t, needs, j);
    var e, fe, le :| e in t && fe in e.fields && le in fe.levels
                     && e.metric == j.metric && fe.field == j.field && le.level == j.level
                     && j.thresh in JobThreshes(le, NeedsThresh(needs, e.metric));
    match a
    case MetricAxis =>
    case FieldAxis =>
    case LevelAxis =>
    case ThreshAxis =>
  }

  lemma OccursCarried(t: Tree, needs: map<string, bool>, a: Axis, v: string)
    requires NoEmptyFields(t) && NoThreshlessLevels(t, needs) && ThreshesOnlyWhereNeeded(t, needs)
    requires Occurs(t, a, v)
    ensures exists j :: j in Jobs(t, needs) && Carries(needs, j, a, v)
  {
    match a
    case MetricAxis =>
      var e :| e in t && e.metric == v;
      assert e.fields[0] in e.fields;
      LevelCarried(t, needs, a, e, e.fields[0], e.fields[0].levels[0]);
    case FieldAxis =>
      var e, fe :| e in t && fe in e.fields && fe.field == v;
      LevelCarried(t, needs, a, e, fe, fe.levels[0]);
    case LevelAxis =>
      var e, fe, le :| e in t && fe in e.fields && le in fe.levels && le.level == v;
      LevelCarried(t, needs, a, e, fe, le);
    case ThreshAxis =>
      var e, fe, le :| e in t && fe in e.fields && le in fe.levels && v in le.threshes;
      ThreshCarried(t, needs, e, fe, le, v);
  }

  lemma LevelCarried(t: Tree, needs: map<string, bool>, a: Axis, e: MetricEntry, fe: FieldEntry, le: LevelEntry)
    requires NoThreshlessLevels(t, needs)
    requires e in t && fe in e.fields && le in fe.levels && !a.ThreshAxis?
    ensures var v := match a case MetricAxis => e.metric case FieldAxis => fe.field case _ => le.level;
            exists j :: j in Jobs(t, needs) && Carries(needs, j, a, v)
  {
    LevelHasJob(t, needs, e, fe, le);
    var j := Job(e.metric, fe.field, le.level, JobThreshes(le, NeedsThresh(needs, e.metric))[0]);
    assert j in Jobs(t, needs);
  }

  lemma ThreshCarried(t: Tree, needs: map<string, bool>, e: MetricEntry, fe: FieldEntry, le: LevelEntry, v: string)
    requires ThreshesOnlyWhereNeeded(t, needs)
    requires e in t && fe in e.fields && le in fe.levels && v in le.threshes
    ensures exists j :: j in Jobs(t, needs) && Carries(needs, j, ThreshAxis, v)
  {
    var j := Job(e.metric, fe.field, le.level, v);
    JobsIff(t, needs, j);
    assert j in Jobs(t, needs);
  }

  /** The value a job has on an axis. */
  function Sel4(j: Job, a: Axis): string
  {
    match a
    case MetricAxis => j.metric
    case FieldAxis => j.field
    case LevelAxis => j.level
    case ThreshAxis => j.thresh
  }

  /** The four count loops of the script, one per include-only list. */
  method WarnUnmatchedInclOnly(t: Tree, c: Options) returns (ws: seq<Warning>)
    ensures ws == Unmatched(t, MetricAxis, c.metrics.inclOnly) + Unmatched(t, FieldAxis, c.fields.inclOnly)
                  + Unmatched(t, LevelAxis, c.levels.inclOnly) + Unmatched(t, ThreshAxis, c.threshes.inclOnly)
  {
    var wm := WarnUnmatched(t, MetricAxis, c.metrics.inclOnly);
    var wf := WarnUnmatched(t, FieldAxis, c.fields.inclOnly);
    var wl := WarnUnmatched(t, LevelAxis, c.levels.inclOnly);
    var wt := WarnUnmatched(t, ThreshAxis, c.threshes.inclOnly);
    ws := wm + wf + wl + wt;
  }

  /** A closing warning: an include-only value given on the command line
      that occurs in the configuration as read but in no call made. */
  ghost predicate UnusedInclOnly(t: Tree, o: Options, needs: map<string, bool>, jobs: seq<Job>, w: Warning)
  {
    w.NotInReducedConfig? && w.value in Sel(o, w.axis).inclOnly && Occurs(t, w.axis, w.value)
    && forall j :: j in jobs ==> !Carries(needs, j, w.axis, w.value)
  }

  lemma UnusedInclOnlyWarnings(t: Tree, o: Options, c: Options, needs: map<string, bool>,
                               reduced: Tree, ws: seq<Warning>)
    requires CleanedFrom(t, o, c)
    requires NoEmptyFields(reduced) && NoThreshlessLevels(reduced, needs)
    requires ThreshesOnlyWhereNeeded(reduced, needs)
    requires ws == Unmatched(reduced, MetricAxis, c.metrics.inclOnly) + Unmatched(reduced, FieldAxis, c.fields.inclOnly)
                   + Unmatched(reduced, LevelAxis, c.levels.inclOnly) + Unmatched(reduced, ThreshAxis, c.threshes.inclOnly)
    ensures forall w :: w in ws <==> UnusedInclOnly(t, o, needs, Jobs(reduced, needs), w)
  {
    UnmatchedIff(reduced, MetricAxis, c.metrics.inclOnly);
    UnmatchedIff(reduced, FieldAxis, c.fields.inclOnly);
    UnmatchedIff(reduced, LevelAxis, c.levels.inclOnly);
    UnmatchedIff(reduced, ThreshAxis, c.threshes.inclOnly);
    forall w ensures w in ws <==> UnusedInclOnly(t, o, needs, Jobs(reduced, needs), w) {
      if w.NotInReducedConfig? {
        assert CleanedSelection(t, w.axis, Sel(o, w.axis), Sel(c, w.axis));
        OccursIffCarried(reduced, needs, w.axis, w.value);
        assert w in ws <==> w.value in Sel(c, w.axis).inclOnly && !Occurs(reduced, w.axis, w.value) by {
          match w.axis
          case MetricAxis =>
          case FieldAxis =>
          case LevelAxis =>
          case ThreshAxis =>
        }
      } else {
        assert w !in ws;
      }
    }
  }

  // ------------------------------------------------ the whole function

  /** Every include-only list given on the command line has a value that
      occurs in the configuration. */
  predicate InclOnlyMatched(t: Tree, o: Options)
  {
    forall a :: |Sel(o, a).inclOnly| > 0 ==> exists v :: v in Sel(o, a).inclOnly && Occurs(t, a, v)
  }

  /** The clean-up empties an include-only list exactly when none of its
      values occurs in the configuration. */
  lemma EmptiedIffUnmatched(t: Tree, o: Options, c: Options)
    requires CleanedFrom(t, o, c)
    ensures FirstEmptiedInclOnly(o, c).None? <==> InclOnlyMatched(t, o)
    ensures FirstEmptiedInclOnly(o, c).Some? ==>
              var a := FirstEmptiedInclOnly(o, c).value;
              |Sel(o, a).inclOnly| > 0 && forall v :: v in Sel(o, a).inclOnly ==> !Occurs(t, a, v)
  {
    forall a ensures |Sel(c, a).inclOnly| > 0 <==> exists v :: v in Sel(o, a).inclOnly && Occurs(t, a, v) {
      assert CleanedSelection(t, a, Sel(o, a), Sel(c, a));
      if |Sel(c, a).inclOnly| > 0 {
        assert Sel(c, a).inclOnly[0] in Sel(c, a).inclOnly;
      }
      if exists v :: v in Sel(o, a).inclOnly && Occurs(t, a, v) {
        var v :| v in Sel(o, a).inclOnly && Occurs(t, a, v);
        assert v in Sel(c, a).inclOnly;
      }
    }
  }

  /** What a run that gets through produces. */
  datatype Outcome = Outcome(warnings: seq<Warning>, reduced: Tree, jobs: seq<Job>, tally: Tally)

  /** A warning of the option clean-up. */
  ghost predicate CleanUpWarning(t: Tree, o: Options, w: Warning)
  {
    w.AbsentFromConfig?
    && w.value in (if w.inclOnly then Sel(o, w.axis).inclOnly else Sel(o, w.axis).excl)
    && !Occurs(t, w.axis, w.value)
  }

  /** make_multi_mv_vx_plots, from the configuration as read to the last
      plot call.  The checks run in the script's order; a run that gets
      through makes exactly the selected calls, in the order of the
      configuration, and reports every include-only value no call uses. */
  method MakeMultiMvVxPlots(cfg: PlotConfig, flags: RunFlags, o: Options, vv: ValidVals,
                            needs: map<string, bool>, db: seq<string>, env: Env)
    returns (r: Result<Outcome, Failure>)
    requires FirstBothGiven(o).None?
    ensures ThreshDbCheck(o, db).Some? ==> r == Err(ThreshDbCheck(o, db).value)
    ensures ThreshDbCheck(o, db).None? && ThreshListCheck(cfg.tree, needs).Some? ==>
              r == Err(ThreshListCheck(cfg.tree, needs).value)
    ensures r.Err? && r.error.InclOnlyAllAbsent? ==>
              ThreshDbCheck(o, db).None? && ThreshListCheck(cfg.tree, needs).None?
              && |Sel(o, r.error.axis).inclOnly| > 0
              && forall v :: v in Sel(o, r.error.axis).inclOnly ==> !Occurs(cfg.tree, r.error.axis, v)
    ensures r.Err? && r.error.NothingLeft? ==> forall j :: !SelectedJob(cfg.tree, o, vv, needs, j)
    ensures ThreshDbCheck(o, db).None? && ThreshListCheck(cfg.tree, needs).None?
            && InclOnlyMatched(cfg.tree, o) ==>
              (r.Ok? <==> exists j :: SelectedJob(cfg.tree, o, vv, needs, j))
    ensures r.Ok? ==> ThreshDbCheck(o, db).None? && ThreshListCheck(cfg.tree, needs).None?
                      && InclOnlyMatched(cfg.tree, o)
    ensures r.Ok? ==> r.value.jobs == Jobs(r.value.reduced, needs) && |r.value.jobs| > 0
                      && ThreshesOnlyWhereNeeded(r.value.reduced, needs)
    ensures r.Ok? ==> forall j :: j in r.value.jobs <==> SelectedJob(cfg.tree, o, vv, needs, j)
    ensures r.Ok? ==> r.value.tally == TallyOf(ImagesOf(env, cfg, flags, r.value.jobs), env.isFile, flags)
    ensures r.Ok? ==> forall w :: w in r.value.warnings <==>
                        CleanUpWarning(cfg.tree, o, w) || UnusedInclOnly(cfg.tree, o, needs, r.value.jobs, w)
  {
    var t := cfg.tree;
    var dbProblem := ThreshDbCheck(o, db);
    if dbProblem.Some? {
      return Err(dbProblem.value);
    }
    var listProblem := ThreshListCheck(t, needs);
    if listProblem.Some? {
      return Err(listProblem.value);
    }
    r := CleanReduceAndPlot(cfg, flags, o, vv, needs, env);
  }

  /** make_multi_mv_vx_plots once both threshold checks have passed: the
      option clean-up, the check on emptied include-only lists, then the
      reduction and the calls. */
  method CleanReduceAndPlot(cfg: PlotConfig, flags: RunFlags, o: Options, vv: ValidVals,
                            needs: map<string, bool>, env: Env)
    returns (r: Result<Outcome, Failure>)
    requires FirstBothGiven(o).None? && ThreshListCheck(cfg.tree, needs).None?
    ensures r.Err? && r.error.InclOnlyAllAbsent? ==>
              |Sel(o, r.error.axis).inclOnly| > 0
              && forall v :: v in Sel(o, r.error.axis).inclOnly ==> !Occurs(cfg.tree, r.error.axis, v)
    ensures r.Err? ==> r.error.InclOnlyAllAbsent? || r.error.NothingLeft?
    ensures r.Err? && r.error.NothingLeft? ==> forall j :: !SelectedJob(cfg.tree, o, vv, needs, j)
    ensures InclOnlyMatched(cfg.tree, o) ==> (r.Ok? <==> exists j :: SelectedJob(cfg.tree, o, vv, needs, j))
    ensures r.Ok? ==> InclOnlyMatched(cfg.tree, o)
    ensures r.Ok? ==> r.value.jobs == Jobs(r.value.reduced, needs) && |r.value.jobs| > 0
                      && ThreshesOnlyWhereNeeded(r.value.reduced, needs)
    ensures r.Ok? ==> forall j :: j in r.value.jobs <==> SelectedJob(cfg.tree, o, vv, needs, j)
    ensures r.Ok? ==> r.value.tally == TallyOf(ImagesOf(env, cfg, flags, r.value.jobs), env.isFile, flags)
    ensures r.Ok? ==> forall w :: w in r.value.warnings <==>
                        CleanUpWarning(cfg.tree, o, w) || UnusedInclOnly(cfg.tree, o, needs, r.value.jobs, w)
  {
    var t := cfg.tree;
    var c, cleanWarnings := CleanOptions(t, o);
    EmptiedIffUnmatched(t, o, c);
    var emptied := FirstEmptiedInclOnly(o, c);
    if emptied.Some? {
      return Err(InclOnlyAllAbsent(emptied.value));
    }
    assert forall w :: w in cleanWarnings <==> CleanUpWarning(t, o, w);
    r := ReduceAndPlot(cfg, flags, o, c, vv, needs, env, cleanWarnings);
  }

  /** The rest of make_multi_mv_vx_plots once the options are cleaned: the
      reduction, the calls and the closing warnings. */
  method ReduceAndPlot(cfg: PlotConfig, flags: RunFlags, o: Options, c: Options, vv: ValidVals,
                       needs: map<string, bool>, env: Env, cleanWarnings: seq<Warning>)
    returns (r: Result<Outcome, Failure>)
    requires ThreshListsValid(cfg.tree, needs) && Prepared(cfg.tree, o, c)
    requires forall w :: w in cleanWarnings <==> CleanUpWarning(cfg.tree, o, w)
    ensures r.Err? ==> r.error.NothingLeft? && forall j :: !SelectedJob(cfg.tree, o, vv, needs, j)
    ensures r.Ok? <==> exists j :: SelectedJob(cfg.tree, o, vv, needs, j)
    ensures r.Ok? ==> r.value.jobs == Jobs(r.value.reduced, needs) && |r.value.jobs| > 0
                      && ThreshesOnlyWhereNeeded(r.value.reduced, needs)
    ensures r.Ok? ==> forall j :: j in r.value.jobs <==> SelectedJob(cfg.tree, o, vv, needs, j)
    ensures r.Ok? ==> r.value.tally == TallyOf(ImagesOf(env, cfg, flags, r.value.jobs), env.isFile, flags)
    ensures r.Ok? ==> forall w :: w in r.value.warnings <==>
                        CleanUpWarning(cfg.tree, o, w) || UnusedInclOnly(cfg.tree, o, needs, r.value.jobs, w)
  {
    var t := cfg.tree;
    var reduced := Reduce(t, o, c, vv, needs);
    if reduced.Err? {
      return Err(reduced.error);
    }
    var final := reduced.value;
    var jobs := Jobs(final, needs);
    var unusedWarnings := WarnUnmatchedInclOnly(final, c);
    UnusedInclOnlyWarnings(t, o, c, needs, final, unusedWarnings);
    var calls, images, missing, copies := Dispatch(env, cfg, flags, jobs);
    var sj :| SelectedJob(t, o, vv, needs, sj);
    assert sj in jobs;
    r := Ok(Outcome(cleanWarnings + unusedWarnings, final, jobs, Tally(calls, images, missing, copies)));
  }

  /** main: the argparse choices (after lower-casing metrics and fields),
      then the four exclusivity checks, then make_multi_mv_vx_plots. */
  method Run(cfg: PlotConfig, flags: RunFlags, args: Options, vv: ValidVals,
             needs: map<string, bool>, db: seq<string>, env: Env)
    returns (r: Result<Outcome, Failure>)
    ensures ChoicesCheck(Normalized(args), vv).Some? ==> r == Err(ChoicesCheck(Normalized(args), vv).value)
    ensures ChoicesCheck(Normalized(args), vv).None? && FirstBothGiven(Normalized(args)).Some? ==>
              r == Err(InclAndExcl(FirstBothGiven(Normalized(args)).value))
    ensures r.Ok? ==> forall j :: j in r.value.jobs <==> SelectedJob(cfg.tree, Normalized(args), vv, needs, j)
    ensures r.Ok? ==> forall a :: !BothGiven(Normalized(args), a)
  {
    var o := Normalized(args);
    var choiceProblem := ChoicesCheck(o, vv);
    if choiceProblem.Some? {
      return Err(choiceProblem.value);
    }
    var both := FirstBothGiven(o);
    if both.Some? {
      return Err(InclAndExcl(both.value));
    }
    r := MakeMultiMvVxPlots(cfg, flags, o, vv, needs, db, env);
  }
}
