# Verification plotting drivers, modelled in Dafny

This project models the scripts that turn a verification plot configuration
into METviewer plot jobs, and proves properties of that model. The plot
configuration is a nested mapping from metric to forecast field to level to
a list of thresholds. Command-line include-only and exclude lists reduce it.
Each remaining job becomes a templated METviewer xml that the METviewer
batch script turns into an image.

The model covers these parts:

- **The multi-plot driver** (`ush/metviewer/make_multi_mv_vx_plots.py`):
  - checks the thresholds against the database and against each metric's need for one;
  - cleans the include and exclude lists;
  - reduces the configuration one axis at a time, pruning emptied branches and failing when a pass empties it;
  - warns about filter values that matched nothing;
  - dispatches one single-plot job per remaining (metric, field, level, threshold);
  - counts and lists the images that were not made;
  - optionally copies the images in order;
  - its command-line checks include the mutual exclusion of include-only and exclude lists for each axis.
  - Modules: `PlotTree`, `PlotOptions`, `PlotFilters`, `MultiPlots`, `MultiDriver`.
- **The single-plot generator** (`ush/metviewer/make_single_mv_vx_plot.py`):
  - threshold parsing and levels;
  - model, colour and ensemble checks;
  - the template values and the xml path.
  - Modules: `PlotRegex`, `PlotParams`, `PlotModels`, `SinglePlot`.
- **Its two older versions** (`ush/metviewer/plot_vx_metviewer.py` and `ush/python_utils/metviewer/plot_vx_metviewer.py`), each modelled where it differs: `OlderPlot`, `UtilsPlot`.
- **The two drivers that loop over statistics, fields and levels**: the `make_mv_vx_plots.py` files under `ush/metviewer/` and `ush/python_utils/metviewer/`. Module: `StatDrivers`.
- **The forecast and observation split** of field, level and threshold names written `fcst|obs` (`parm/metplus/separate_fcst_obs_info.py`). Module: `FcstObsSplit`.
- **The lead hours with available files** (`ush/set_leadhrs.py`). Module: `LeadHours`.
- **The test-list, run-environment and external-data checks** of the workflow end-to-end test driver (`tests/WE2E/run_WE2E_tests.py`). Module: `WE2ETests`.

Python behaviours the scripts rely on are modelled as plain Dafny functions in `PyStr` and `PySeq`:

- string methods: `strip`, `lstrip`, `zfill`, `split`, `join`, `replace`, `upper`, `lower` (the last three on ASCII characters only);
- `os.path.join`;
- `sorted` and dictionary insertion order;
- `list.remove`.

How Python failures are modelled:

- A Python exception is an `Err` value that names its cause.
- The name error of a variable that was never defined is `UndefinedName` with the name used in the source (`error_msg`, `error_out`, `no_thresh_stats`, `lhrs_array`, `xml_threshold`, `xtick_label_freq`, `loa_value_no0pad`).
- A dictionary the source updates in place is a returned new value.
- An `argparse` namespace the source rewrites is a class whose rewritten attributes are mutable fields.
- File-system queries and the rendering and running of a job are function parameters:
  - `os.path.isfile`, `isdir`, `islink`, `realpath`, `glob`;
  - rendering and running a job, which is reduced to the image path it yields.

The behaviour follows the code wherever the code and its documentation differ. The exception is the four bugs listed under "## Findings": for each, the as-written behaviour is modelled and proved to differ, and the top-level members then use the corrected behaviour. "## Left out" names every member this concerns. Three cases where the code is followed against its documentation:

- **Include-only selection.** Include-only filtering removes only keys that belong to the axis's list of valid values. A key of the configuration outside that list survives it (`MultiPlots.KeySelected`).
- **The "thresholds ignored" warning.** The warning the dispatch loop would give for thresholds under a metric that needs none cannot fire. The threshold-list check at the start already rejects such a configuration (`MultiDriver.MakeMultiMvVxPlots`).
- **The lead hours with `--verbose`.** `set_leadhrs` prints an undefined name there, so that run fails. The model returns that failure.

## Model

| member | source | states |
|---|---|---|
| WE2ETests.RunEnvirCheck | tests/WE2E/run_WE2E_tests.py:46-48 | an unset or empty run_envir passes; any other value passes exactly when it is nco or community, else a KeyError naming the value |
| WE2ETests.CheckTest | tests/WE2E/run_WE2E_tests.py:295-314 | the loop over the glob hits returns the absolute path of the last hit containing `config.<stripped test>.yaml`, '' when none does |
| WE2ETests.NoHitNoMatch | tests/WE2E/run_WE2E_tests.py:310-314 | with no hit containing the config name, check_test returns '' |
| WE2ETests.LastHitMatches | tests/WE2E/run_WE2E_tests.py:310-314 | a hit followed by no other hit is the config check_test returns (later hits overwrite earlier ones) |
| WE2ETests.FirstDuplicateName | tests/WE2E/run_WE2E_tests.py:253-264 | the duplicate check raises exactly when two glob hits share a base name, and names the first base name already seen, all earlier names being distinct |
| WE2ETests.Answers | tests/WE2E/run_WE2E_tests.py:265-276 | one check_test answer per line of the list, in order |
| WE2ETests.AnswersResolve | tests/WE2E/run_WE2E_tests.py:265-276 | the answers are check_test mapped over the lines |
| WE2ETests.CollectedOk | tests/WE2E/run_WE2E_tests.py:265-277 | the line loop succeeds exactly when every line that is not blank and holds no '#' resolves to a config |
| WE2ETests.Listed | tests/WE2E/run_WE2E_tests.py:266-273 | the lines kept are exactly those that are neither blank/whitespace nor comments |
| WE2ETests.CollectedConfigs | tests/WE2E/run_WE2E_tests.py:265-277 | a successful line loop lists the configs of the kept lines, in line order |
| WE2ETests.CollectedErr | tests/WE2E/run_WE2E_tests.py:274-276 | a failure raises "Could not find test" for the first kept line without a config, every earlier kept line having one |
| WE2ETests.CollectedErrStays | tests/WE2E/run_WE2E_tests.py:274-276 | once a line fails, the later lines do not change the outcome (the raise stops the loop) |
| WE2ETests.CollectTests | tests/WE2E/run_WE2E_tests.py:265-277 | the loop over the lines, calling check_test on each kept line, returns the collected configs or the first failure |
| WE2ETests.ResolveLine | tests/WE2E/run_WE2E_tests.py:266-274 | one line: whether it is skipped and, if not, check_test's answer |
| WE2ETests.DropLinkedStillListed | tests/WE2E/run_WE2E_tests.py:280-286 | every entry of the copy not yet looked at is still in the list, so `tests_to_run.remove(testfile)` never fails |
| WE2ETests.DropLinkedShrinks | tests/WE2E/run_WE2E_tests.py:280-286 | the symlink loop only removes entries (the result is a sub-multiset of the input) |
| WE2ETests.DropLinkedKeepsPlainTests | tests/WE2E/run_WE2E_tests.py:280-286 | a config that is not a symlink keeps its number of occurrences |
| WE2ETests.LinkStepRemoves | tests/WE2E/run_WE2E_tests.py:281-286 | one step keeps the list, or removes one occurrence of a symlink whose real path is listed |
| WE2ETests.RemoveLinkedCopies | tests/WE2E/run_WE2E_tests.py:280-286 | the loop over a copy of the list computes LinksDropped, the specification of the symlink pass |
| WE2ETests.CheckTests | tests/WE2E/run_WE2E_tests.py:241-290 | duplicate base names raise first; then a line failure is returned as is; otherwise the result has no duplicates and holds exactly the configs left by the symlink pass, and when that pass leaves no repeats it is that list itself, in line order |
| WE2ETests.Get | tests/WE2E/run_WE2E_tests.py:342-352 | `d.get(key, default)` succeeds exactly on a dict (AttributeError otherwise) |
| WE2ETests.Index | tests/WE2E/run_WE2E_tests.py:336 | `d[key]` succeeds exactly on a dict holding the key |
| WE2ETests.Redirect | tests/WE2E/run_WE2E_tests.py:359-371 | the placeholder branch succeeds exactly when the machine file names the alternative directory and the directory check does not raise; it then sets the system directory in the section, in the configuration too |
| WE2ETests.ExistingAltDirRejected | tests/WE2E/run_WE2E_tests.py:362-365 | as written, an EXISTING alternative directory raises FileNotFoundError |
| WE2ETests.RedirectSysBaseDir | tests/WE2E/run_WE2E_tests.py:359-371 | corrected redirect: on success the configuration keeps its keys and its section is the returned section |
| WE2ETests.ExistingAltDirUsed | tests/WE2E/run_WE2E_tests.py:359-371 | corrected redirect: succeeds exactly when the alternative is a directory, and then only the system directory key of the section changes |
| WE2ETests.PointToStagedData | tests/WE2E/run_WE2E_tests.py:373-399 | on success the data stores become "disk", the staged directory was given and is a directory, the section gets EXTRN_MDL_SOURCE_BASEDIR and keeps every other key; a staged directory that is not a directory raises FileNotFoundError |
| WE2ETests.WithFileFormat | tests/WE2E/run_WE2E_tests.py:386-389 | FV3GFS without a file format gets the default configuration's; any other section is unchanged |
| WE2ETests.CheckTaskGetExtrnBcs | tests/WE2E/run_WE2E_tests.py:317-399 | a mode other than ics/lbcs is the only ValueError; on success the configuration keeps its keys and its task section is the section returned; the alternative-directory redirect is the corrected one of the Findings table |
| WE2ETests.StagedBcs | tests/WE2E/run_WE2E_tests.py:351-399 | for a running task, the configuration keeps its keys and its section is the section returned; an existing alternative directory is used (the corrected redirect), where the code raises |
| WE2ETests.StagedPathPerCycle | tests/WE2E/run_WE2E_tests.py:386-397 | whatever the model, the staged directory ends in `/${yyyymmddhh}` |
| WE2ETests.TaskOffLeavesConfig | tests/WE2E/run_WE2E_tests.py:342-347 | a task switched off returns its section with the configuration unchanged |
| WE2ETests.UnstagedLeavesConfig | tests/WE2E/run_WE2E_tests.py:352-355 | without a truthy USE_USER_STAGED_EXTRN_FILES nothing changes |
| WE2ETests.NoColdstartMeansOff | tests/WE2E/run_WE2E_tests.py:342-344 | a taskgroups list without coldstart.yaml switches the task off |
| WE2ETests.ListedTaskWithoutValue | tests/WE2E/run_WE2E_tests.py:345-347 | without taskgroups, the task is off exactly when listed under rocoto tasks with no value |
| LeadHours.RangeUp | ush/set_leadhrs.py:38 | `range` with a positive step: the k-th value is start + k·step, every value is below stop and the next one would not be |
| LeadHours.RangeDown | ush/set_leadhrs.py:38 | `range` with a negative step: the k-th value is start + k·step, every value is above stop and the next one would not be |
| LeadHours.PyRange | ush/set_leadhrs.py:38 | `list(range(...))` raises ValueError exactly on a zero step; otherwise the k-th value is start + k·step |
| LeadHours.RangeUpHas | ush/set_leadhrs.py:38 | every progression value below stop is in the range, at its own index |
| LeadHours.CandidateHours | ush/set_leadhrs.py:38 | with a positive interval, the k-th candidate exists exactly when lhr_min + k·lhr_intvl <= lhr_max, and equals it |
| LeadHours.LeadHours | ush/set_leadhrs.py:37-84 | a zero interval is a ValueError; the verbose print of the undefined `lhrs_array` is a NameError; every returned hour is a candidate |
| LeadHours.CheckFiles | ush/set_leadhrs.py:55-75 | the loop keeps the hours whose file exists, in order, and counts the others |
| LeadHours.SetLeadhrs | ush/set_leadhrs.py:12-84 | the function computes LeadHours, its step-by-step specification |
| LeadHours.KeptPlusMissing | ush/set_leadhrs.py:57-72 | every candidate is either kept or counted missing |
| LeadHours.SkipReturnsCandidates | ush/set_leadhrs.py:42-43 | skip_check_files returns the whole range whatever the files |
| LeadHours.BadDateInitRejected | ush/set_leadhrs.py:46-53 | a date_init not 10, 12 or 14 characters long raises ValueError |
| LeadHours.CheckedHours | ush/set_leadhrs.py:55-84 | after the file check, the run fails exactly when more files are missing than num_missing_files_max (equality passes), else returns the hours with files, in range order |
| LeadHours.KeptHoursHaveFiles | ush/set_leadhrs.py:67-70 | a returned hour is a candidate whose file exists, and every such candidate is returned |
| LeadHours.CheckArgs | ush/set_leadhrs.py:107-108 | without --skip_check_files an empty --date_init stops the run (with the TypeError the one-argument `ArgumentError` call raises) |
| FcstObsSplit.SplitToken | parm/metplus/separate_fcst_obs_info.py:121-129 | a field name, level or threshold splits exactly when it holds at most one '\|'; more than one reaches the undefined name error_msg (NameError) |
| FcstObsSplit.TokenWithoutSep | parm/metplus/separate_fcst_obs_info.py:121-125 | without a separator both sides get the stripped token |
| FcstObsSplit.TokenWithOneSep | parm/metplus/separate_fcst_obs_info.py:121-127 | with one separator the forecast side gets the stripped left part and the observation side the stripped right part |
| FcstObsSplit.SideThreshes | parm/metplus/separate_fcst_obs_info.py:152-172 | one side's threshold list has one entry per input threshold |
| FcstObsSplit.SideFields | parm/metplus/separate_fcst_obs_info.py:115-194 | one side's field list has one entry per input field |
| FcstObsSplit.SplitThreshes | parm/metplus/separate_fcst_obs_info.py:152-172 | the threshold loop succeeds exactly when every threshold splits, and then returns both sides entry by entry; otherwise the NameError |
| FcstObsSplit.SplitLevel | parm/metplus/separate_fcst_obs_info.py:137-182 | one level: its name split, then its thresholds; succeeds exactly when all of them split |
| FcstObsSplit.SplitLevels | parm/metplus/separate_fcst_obs_info.py:135-182 | the level loop assigns each split level into a dict per side (a later equal key replaces the earlier value in place); succeeds exactly when every level splits |
| FcstObsSplit.SplitField | parm/metplus/separate_fcst_obs_info.py:117-194 | one field: its name split, then its levels |
| FcstObsSplit.SplitFields | parm/metplus/separate_fcst_obs_info.py:115-194 | the field loop appends one single-key dict per field and side; succeeds exactly when every field splits |
| FcstObsSplit.SeparateFcstObsInfo | parm/metplus/separate_fcst_obs_info.py:108-214 | the whole split succeeds exactly when every token has at most one separator, and returns {'fcst', 'obs'} built side by side; otherwise the NameError |
| FcstObsSplit.ThreshesPaired | parm/metplus/separate_fcst_obs_info.py:154-172 | the i-th threshold gives the i-th entry of both lists, so both keep the input's order and length |
| FcstObsSplit.LevelsLastWins | parm/metplus/separate_fcst_obs_info.py:181-182 | a side's level names are distinct, and the thresholds kept for a name are those of the last input level with that side name |
| FcstObsSplit.DuplicateFieldsKept | parm/metplus/separate_fcst_obs_info.py:103-194 | two fields with the same side name are both kept, each with its own levels |
| FcstObsSplit.GroupKeysShared | parm/metplus/separate_fcst_obs_info.py:203-204 | both sides have the same field groups in the same order |
| FcstObsSplit.DistinctGroupsKept | parm/metplus/separate_fcst_obs_info.py:110-204 | with distinct group names (a YAML mapping's keys), each side holds every group, split, in input order |
| FcstObsSplit.SideGroupKeys | parm/metplus/separate_fcst_obs_info.py:203-204 | splitting a group keeps its name |
| StatDrivers.SelectedJobsIff | ush/metviewer/make_mv_vx_plots.py:112-186 | a plotting call is made for a (stat, field, level, threshold) exactly when the configuration lists that threshold and the stat is selected |
| StatDrivers.StatJobsIff | ush/metviewer/make_mv_vx_plots.py:133-186 | the calls for one stat are exactly the thresholds listed under it, when it is selected |
| StatDrivers.HasThreshSnoc | ush/metviewer/make_mv_vx_plots.py:113 | a path of the vx_stats dict is a path of its earlier stats or of its last stat |
| StatDrivers.SelectedJobsCount | ush/metviewer/make_mv_vx_plots.py:156-181 | one call per threshold listed under a selected stat |
| StatDrivers.LevelJobsCount | ush/metviewer/make_mv_vx_plots.py:145-157 | one call per threshold of the levels of one field |
| StatDrivers.FieldJobsCount | ush/metviewer/make_mv_vx_plots.py:133-157 | one call per threshold of the fields of one stat |
| StatDrivers.ValueAfter | ush/metviewer/make_mv_vx_plots.py:163-172 | the value argparse reads for an option is an item of the argument list |
| StatDrivers.ValueAfterSkips | ush/metviewer/make_mv_vx_plots.py:163-172 | items before the first occurrence of a flag do not change the value read for it |
| StatDrivers.FlagNotPlain | ush/metviewer/make_mv_vx_plots.py:163-172 | a flag is none of the plain values that precede it |
| StatDrivers.ExcludeWins | ush/metviewer/make_mv_vx_plots.py:115-122 | an excluded stat is never plotted, even when it is also included |
| StatDrivers.OlderSelectedIff | ush/metviewer/make_mv_vx_plots.py:115-122 | a stat is plotted exactly when it is not excluded and there is no include list or it is on it |
| StatDrivers.OlderArgList | ush/metviewer/make_mv_vx_plots.py:163-172 | the argument list has 18 items besides the model names and forecast initialisation values |
| StatDrivers.OlderArgListStat | ush/metviewer/make_mv_vx_plots.py:163-172 | the plotting script reads the call's stat back from `--vx_stat` |
| StatDrivers.OlderArgListField | ush/metviewer/make_mv_vx_plots.py:163-172 | the plotting script reads the call's field back from `--fcst_field` |
| StatDrivers.OlderArgListLevel | ush/metviewer/make_mv_vx_plots.py:163-172 | the plotting script reads the call's level back from `--level_or_accum` |
| StatDrivers.OlderArgListThresh | ush/metviewer/make_mv_vx_plots.py:163-172 | the plotting script reads the call's threshold back from `--threshold` |
| StatDrivers.OlderImages | ush/metviewer/make_mv_vx_plots.py:186-196 | one expected png per call, in call order |
| StatDrivers.OlderCall | ush/metviewer/make_mv_vx_plots.py:163-215 | one pass of the innermost loop advances the counters and copies exactly as one step of the tally specification |
| StatDrivers.PlotOlderStat | ush/metviewer/make_mv_vx_plots.py:133-215 | the loops over one selected stat extend the tally by that stat's calls |
| StatDrivers.MakeMvVxPlotsOlder | ush/metviewer/make_mv_vx_plots.py:109-215 | num_mv_calls, num_images_generated and the ordered copies equal the tally of the calls made for the selected stats |
| StatDrivers.OlderCounts | ush/metviewer/make_mv_vx_plots.py:181-200 | num_mv_calls is the number of thresholds under the selected stats, and never fewer than num_images_generated |
| StatDrivers.OlderCallsIff | ush/metviewer/make_mv_vx_plots.py:113-186 | a call is made for a path exactly when the path is configured, its stat is not excluded and there is no include list or the stat is on it |
| StatDrivers.OlderCopies | ush/metviewer/make_mv_vx_plots.py:207-215 | copies are made only with --create_ordered_plots, one per image counted, and no two share a target name |
| StatDrivers.ContainsSelf | ush/python_utils/metviewer/make_mv_vx_plots.py:64 | a string contains itself |
| StatDrivers.FbiasSkipsBias | ush/python_utils/metviewer/make_mv_vx_plots.py:64-125 | `--exclude_stats fbias` (a single string, so `in` is substring containment) also skips "bias" |
| StatDrivers.GivenSkipped | ush/python_utils/metviewer/make_mv_vx_plots.py:64 | the stat given to --exclude_stats is skipped |
| StatDrivers.DefaultSkipsNothing | ush/python_utils/metviewer/make_mv_vx_plots.py:64-123 | with the default empty list nothing is skipped |
| StatDrivers.LongerNotSkipped | ush/python_utils/metviewer/make_mv_vx_plots.py:64 | a stat longer than the excluded string is never skipped |
| StatDrivers.BiasSkippedBy | ush/python_utils/metviewer/make_mv_vx_plots.py:64-125 | of the accepted choices, exactly "bias" and "fbias" skip "bias" |
| StatDrivers.BrierKeepsBias | ush/python_utils/metviewer/make_mv_vx_plots.py:64 | "brier" does not contain "bias" |
| StatDrivers.RelyKeepsBias | ush/python_utils/metviewer/make_mv_vx_plots.py:64 | "rely" does not contain "bias" |
| StatDrivers.RhistKeepsBias | ush/python_utils/metviewer/make_mv_vx_plots.py:64 | "rhist" does not contain "bias" |
| StatDrivers.UtilsArgList | ush/python_utils/metviewer/make_mv_vx_plots.py:82-89 | the argument list has 14 items besides the model names and forecast initialisation values |
| StatDrivers.UtilsArgListStatVar | ush/python_utils/metviewer/make_mv_vx_plots.py:82-89 | the plotting script reads the call's stat and forecast variable back from `--stat` and `--fcst_var` |
| StatDrivers.UtilsCalls | ush/python_utils/metviewer/make_mv_vx_plots.py:79-92 | one argument list per call, in call order |
| StatDrivers.UtilsStatCalls | ush/python_utils/metviewer/make_mv_vx_plots.py:67-92 | the loops over one stat that is not skipped append its calls' argument lists |
| StatDrivers.MakeMvVxPlotsUtils | ush/python_utils/metviewer/make_mv_vx_plots.py:57-92 | the calls made are the argument lists of every configured path whose stat is not skipped, in loop order |
| StatDrivers.UtilsCallsIff | ush/python_utils/metviewer/make_mv_vx_plots.py:58-92 | a call is made for a path exactly when it is configured and its stat is not skipped |
| StatDrivers.FbiasDropsBiasPlots | ush/python_utils/metviewer/make_mv_vx_plots.py:64 | excluding "fbias" makes no "bias" plot either |
| MultiDriver.ImagesOf | ush/metviewer/make_multi_mv_vx_plots.py:941-980 | one image path per call, in call order: the rendered xml path with its extension replaced by .png |
| MultiDriver.OrderedNameDistinct | ush/metviewer/make_multi_mv_vx_plots.py:1006 | two different call numbers give two different `p<NNN>_<image>` names, whatever the image names |
| MultiDriver.TallySnoc | ush/metviewer/make_multi_mv_vx_plots.py:967-1009 | the counters after one more call are the previous counters advanced by that call |
| MultiDriver.TallyCounts | ush/metviewer/make_multi_mv_vx_plots.py:967-986 | num_mv_calls equals the number of calls; images found plus missing names equals the number of calls; images found equals the number of calls whose png exists |
| MultiDriver.TallyCallCounts | ush/metviewer/make_multi_mv_vx_plots.py:967-986 | each call is counted once and lands either in the image count or in the missing list |
| MultiDriver.TallyImagesPresent | ush/metviewer/make_multi_mv_vx_plots.py:983-984 | num_images_generated is the number of calls whose png exists |
| MultiDriver.MissingImageSnoc | ush/metviewer/make_multi_mv_vx_plots.py:983-986 | a name is missing after one more call exactly when it was missing before or is that call's base name with no png |
| MultiDriver.TallyMissing | ush/metviewer/make_multi_mv_vx_plots.py:980-1025 | missing_image_fns holds exactly the base names of the images that were not generated |
| MultiDriver.TallyCopyCount | ush/metviewer/make_multi_mv_vx_plots.py:1001-1009 | with create_ordered_plots there is one copy per generated image; without it there are none |
| MultiDriver.TallyCopies | ush/metviewer/make_multi_mv_vx_plots.py:1001-1009 | each copy is of the existing image of the call whose number it carries, and copies come in call order |
| MultiDriver.CopyTargetsDistinct | ush/metviewer/make_multi_mv_vx_plots.py:1006-1009 | no two ordered copies have the same target path, so none overwrites another |
| MultiDriver.Dispatch | ush/metviewer/make_multi_mv_vx_plots.py:849-1009 | the dispatch loop leaves the counters, missing names and copies equal to the tally of the images of the calls, in job order |
| MultiDriver.PlotOne | ush/metviewer/make_multi_mv_vx_plots.py:941-1009 | one call: the argument list, the counter increment, the png check with its missing name, and the ordered copy; the result is one tally step |
| MultiDriver.UnmatchedIff | ush/metviewer/make_multi_mv_vx_plots.py:722-824 | a count-loop warning is issued exactly for each include-only value that does not occur on its axis of the reduced configuration |
| MultiDriver.WarnUnmatched | ush/metviewer/make_multi_mv_vx_plots.py:722-824 | the loop over one include-only list warns, in list order, for each value its count loop finds nowhere in the reduced configuration |
| MultiDriver.LevelHasJob | ush/metviewer/make_multi_mv_vx_plots.py:910-941 | on a pruned configuration every level produces at least one call, so every metric and field does too |
| MultiDriver.OccursIffCarried | ush/metviewer/make_multi_mv_vx_plots.py:722-824 | after pruning, a value occurs on an axis exactly when some call plots it; the closing warnings therefore name exactly the unused include-only values |
| MultiDriver.CarriedOccurs | ush/metviewer/make_multi_mv_vx_plots.py:874-941 | the metric, field, level and needed threshold of every call occur in the reduced configuration |
| MultiDriver.OccursCarried | ush/metviewer/make_multi_mv_vx_plots.py:874-941 | every metric, field, level and threshold left in a pruned configuration is plotted by some call |
| MultiDriver.LevelCarried | ush/metviewer/make_multi_mv_vx_plots.py:910-941 | the metric, field and level of any level entry of a pruned configuration are plotted by a call |
| MultiDriver.ThreshCarried | ush/metviewer/make_multi_mv_vx_plots.py:927-941 | a threshold listed under a metric that needs thresholds is plotted by a call |
| MultiDriver.WarnUnmatchedInclOnly | ush/metviewer/make_multi_mv_vx_plots.py:722-824 | the four count loops run in the order metrics, fields, levels, thresholds, each over its own include-only list |
| MultiDriver.UnusedInclOnlyWarnings | ush/metviewer/make_multi_mv_vx_plots.py:673-824 | the closing warnings are exactly the include-only values that occur in the configuration as read but are used by no call |
| MultiDriver.EmptiedIffUnmatched | ush/metviewer/make_multi_mv_vx_plots.py:258-444 | the clean-up empties a given include-only list exactly when none of its values occurs in the configuration; the error names such an axis |
| MultiDriver.MakeMultiMvVxPlots | ush/metviewer/make_multi_mv_vx_plots.py:183-1025 | the checks run in the script's order (database thresholds, threshold lists, emptied include-only lists, nothing left); a successful run calls exactly the selected metric-field-level-threshold combinations; its tally is that of those calls; its warnings are the clean-up warnings plus the unused include-only values |
| MultiDriver.CleanReduceAndPlot | ush/metviewer/make_multi_mv_vx_plots.py:256-1025 | once both threshold checks pass, the run fails only on an emptied include-only list or an empty reduced configuration; otherwise it succeeds exactly when some combination is selected |
| MultiDriver.ReduceAndPlot | ush/metviewer/make_multi_mv_vx_plots.py:446-1025 | with the options cleaned, the run succeeds exactly when some combination is selected, and then calls exactly those combinations |
| MultiDriver.Run | ush/metviewer/make_multi_mv_vx_plots.py:1106-1338 | main: an argparse choice error comes first, then an include-only/exclude pair given together on any axis; a successful run calls exactly the combinations the lower-cased options select |
| MultiPlots.LevelKeysOccur | ush/metviewer/make_multi_mv_vx_plots.py:215-217 | a metric-field-level path of the configuration puts its metric, field and level on their axes |
| MultiPlots.ThreshKeysOccur | ush/metviewer/make_multi_mv_vx_plots.py:215-217 | a threshold path puts its level path and its threshold in the configuration |
| MultiPlots.DroppedIffUnselected | ush/metviewer/make_multi_mv_vx_plots.py:456-560 | for a key the configuration holds, an axis pass pops it exactly when the original include-only/exclude options reject it |
| MultiPlots.KeptIffSelected | ush/metviewer/make_multi_mv_vx_plots.py:602-627 | for a threshold the configuration holds, the set intersection or difference keeps it exactly when the original threshold options accept it; with neither option active every threshold stays |
| MultiPlots.MetricStage | ush/metviewer/make_multi_mv_vx_plots.py:451-466 | after the metric pass the tree holds exactly the paths of the configuration whose metric the options select |
| MultiPlots.FieldStage | ush/metviewer/make_multi_mv_vx_plots.py:488-515 | after the field pass and the removal of emptied metrics the tree holds exactly the paths whose metric and field are selected |
| MultiPlots.LevelStepPaths | ush/metviewer/make_multi_mv_vx_plots.py:544-571 | the level pass and its clean-up keep exactly the level and threshold paths whose level is not popped |
| MultiPlots.LevelStage | ush/metviewer/make_multi_mv_vx_plots.py:537-571 | after the level pass the tree holds exactly the paths whose metric, field and level are selected |
| MultiPlots.FilteredThreshPaths | ush/metviewer/make_multi_mv_vx_plots.py:602-627 | filtering the threshold lists keeps exactly the threshold paths the filter keeps and every level path |
| MultiPlots.PrunedThreshPaths | ush/metviewer/make_multi_mv_vx_plots.py:636-649 | the clean-up after the threshold pass keeps every threshold path, keeps every level of a metric without thresholds, and adds no level |
| MultiPlots.ThreshStepPaths | ush/metviewer/make_multi_mv_vx_plots.py:602-649 | the threshold pass and its clean-up keep exactly the threshold paths that the active filter keeps |
| MultiPlots.ThreshStage | ush/metviewer/make_multi_mv_vx_plots.py:594-649 | after the threshold pass the threshold paths are exactly those whose metric, field, level and threshold are selected; levels of metrics without thresholds survive exactly when selected |
| MultiPlots.FinalJobs | ush/metviewer/make_multi_mv_vx_plots.py:874-941 | the calls of the final tree are exactly the selected combinations, with the empty threshold for metrics that need none |
| MultiPlots.EmptyStageSelectsNothing | ush/metviewer/make_multi_mv_vx_plots.py:472-592 | an empty tree after the metric, field or level pass means no combination is selected, so the error stop loses no plot |
| MultiPlots.StrayThreshesStayOut | ush/metviewer/make_multi_mv_vx_plots.py:636-649 | reduction never adds a threshold under a metric that needs none |
| MultiPlots.Reduce | ush/metviewer/make_multi_mv_vx_plots.py:446-671 | the four passes with their empty checks: the reduction fails (nothing left) exactly when no combination is selected; otherwise the reduced tree's calls are exactly the selected combinations and no field or needed level is left empty |
| MultiPlots.ReduceThresholds | ush/metviewer/make_multi_mv_vx_plots.py:594-671 | the threshold pass, the pruning and the final empty check: the error names the threshold axis and occurs exactly when nothing is selected |
| MultiPlots.KnownAfterThreshPass | ush/metviewer/make_multi_mv_vx_plots.py:636-645 | every metric left after the threshold pass has an entry in vx_metric_needs_thresh, so the lookup in the clean-up cannot raise KeyError |
| PlotFilters.Keys | ush/metviewer/make_multi_mv_vx_plots.py:607-625 | set(list) holds exactly the members of the list |
| PlotFilters.WithoutMetricsTwice | ush/metviewer/make_multi_mv_vx_plots.py:456-466 | popping one set of metrics and then another equals popping their union, so the include-only and exclude pops compose |
| PlotFilters.WithoutFieldsTwice | ush/metviewer/make_multi_mv_vx_plots.py:494-508 | the same for the fields of one metric |
| PlotFilters.WithoutLevelsTwice | ush/metviewer/make_multi_mv_vx_plots.py:544-560 | the same for the levels of one field |
| PlotFilters.WithoutMetricsNone | ush/metviewer/make_multi_mv_vx_plots.py:456-466 | popping no metric leaves the dict unchanged |
| PlotFilters.WithoutFieldsNone | ush/metviewer/make_multi_mv_vx_plots.py:494-508 | popping no field leaves a metric's dict unchanged |
| PlotFilters.WithoutLevelsNone | ush/metviewer/make_multi_mv_vx_plots.py:544-560 | popping no level leaves a field's dict unchanged |
| PlotFilters.FieldsWithoutTwice | ush/metviewer/make_multi_mv_vx_plots.py:494-508 | two field pops over every metric equal one pop of the union |
| PlotFilters.FieldsWithoutNone | ush/metviewer/make_multi_mv_vx_plots.py:494-508 | a field pass that pops nothing leaves the tree unchanged |
| PlotFilters.LevelsWithoutTwice | ush/metviewer/make_multi_mv_vx_plots.py:544-560 | two level pops over every metric and field equal one pop of the union |
| PlotFilters.LevelsWithoutNone | ush/metviewer/make_multi_mv_vx_plots.py:544-560 | a level pass that pops nothing leaves the tree unchanged |
| PlotFilters.KeysOfFilter | ush/metviewer/make_multi_mv_vx_plots.py:457-458 | the keys popped by the include-only comprehension are the valid values the include-only list does not name |
| PlotFilters.PopMetrics | ush/metviewer/make_multi_mv_vx_plots.py:457-466 | `[d.pop(k, None) for k in keys]` removes exactly the metrics named by keys, missing keys being ignored, and keeps the others in order |
| PlotFilters.PopFields | ush/metviewer/make_multi_mv_vx_plots.py:496-508 | the same pop loop on one metric's fields |
| PlotFilters.PopLevels | ush/metviewer/make_multi_mv_vx_plots.py:547-560 | the same pop loop on one field's levels |
| PlotFilters.PopFieldsEverywhere | ush/metviewer/make_multi_mv_vx_plots.py:495-508 | the field pops applied under every metric |
| PlotFilters.PopLevelsIn | ush/metviewer/make_multi_mv_vx_plots.py:546-560 | the level pops applied under every field of one metric |
| PlotFilters.PopLevelsEverywhere | ush/metviewer/make_multi_mv_vx_plots.py:545-560 | the level pops applied under every metric and field |
| PlotFilters.MetricPass | ush/metviewer/make_multi_mv_vx_plots.py:451-466 | the metric pass removes exactly the dropped metrics: those of the valid list not in an active include-only list, and those in an active exclude list |
| PlotFilters.FieldPass | ush/metviewer/make_multi_mv_vx_plots.py:488-508 | the field pass removes exactly the dropped fields under every metric |
| PlotFilters.LevelPass | ush/metviewer/make_multi_mv_vx_plots.py:537-560 | the level pass removes exactly the dropped levels under every metric and field |
| PlotFilters.KeptSet | ush/metviewer/make_multi_mv_vx_plots.py:607-625 | the intersection or difference holds exactly the thresholds of the list that the filter keeps |
| PlotFilters.FilterLevelLists | ush/metviewer/make_multi_mv_vx_plots.py:605-626 | each level keeps its key; its list is replaced by a duplicate-free list of the kept thresholds |
| PlotFilters.FilterFieldLists | ush/metviewer/make_multi_mv_vx_plots.py:604-626 | the same under every field of one metric, keeping field and level keys in order |
| PlotFilters.FilterTreeLists | ush/metviewer/make_multi_mv_vx_plots.py:603-626 | the same over the whole tree: the shape is unchanged and each threshold list is filtered |
| PlotFilters.ThreshPass | ush/metviewer/make_multi_mv_vx_plots.py:594-627 | the include-only filter runs when that option was given and kept values, the exclude filter likewise, and with neither the tree is unchanged |
| PlotFilters.PopEmptyMetrics | ush/metviewer/make_multi_mv_vx_plots.py:510-515 | the metrics whose field dict became empty are popped and the others kept in order |
| PlotFilters.PopEmptyFields | ush/metviewer/make_multi_mv_vx_plots.py:566-569 | the fields of a metric whose level dict became empty are popped |
| PlotFilters.PruneAfterLevels | ush/metviewer/make_multi_mv_vx_plots.py:562-571 | the level-stage clean-up: empty fields are popped, then metrics left empty |
| PlotFilters.KnownMetricAt | ush/metviewer/make_multi_mv_vx_plots.py:636-645 | a metric with a level below it has an entry in vx_metric_needs_thresh |
| PlotFilters.PopThreshlessLevels | ush/metviewer/make_multi_mv_vx_plots.py:638-645 | under a metric that needs thresholds, the levels with an empty list are popped; the lookup is made only when a level exists |
| PlotFilters.PruneFieldsAfterThreshes | ush/metviewer/make_multi_mv_vx_plots.py:637-647 | threshold-less levels are popped from each field, then the fields left empty |
| PlotFilters.PruneAfterThreshes | ush/metviewer/make_multi_mv_vx_plots.py:629-649 | the threshold-stage clean-up: threshold-less levels, then empty fields, then empty metrics |
| PlotOptions.LowerAll | ush/metviewer/make_multi_mv_vx_plots.py:1110-1165 | type=str.lower maps each metric and field value to its lower-case form, position by position |
| PlotOptions.ChoicesCheck | ush/metviewer/make_multi_mv_vx_plots.py:1108-1210 | argparse passes exactly when every metric, field and level value is among the valid ones; otherwise it names an axis other than thresholds |
| PlotOptions.FirstBothGiven | ush/metviewer/make_multi_mv_vx_plots.py:1281-1331 | main stops on the first axis, in the order metrics, fields, levels, thresholds, for which both the include-only and the exclude option were given; it stops on none exactly when no axis has both |
| PlotOptions.NotInDb | ush/metviewer/make_multi_mv_vx_plots.py:188 | the set difference holds exactly the option values missing from the database's valid thresholds |
| PlotOptions.ThreshDbCheck | ush/metviewer/make_multi_mv_vx_plots.py:183-209 | the check passes exactly when every threshold of both options is valid for the database; the error names the include-only option when it has an offender, and the offenders are exactly the invalid values of the named option |
| PlotOptions.LevelsCheck | ush/metviewer/make_multi_mv_vx_plots.py:217-251 | the loop over one field's levels passes exactly when no level has a problem, and otherwise reports the problem of a level of that field |
| PlotOptions.FieldsCheck | ush/metviewer/make_multi_mv_vx_plots.py:216-251 | the same over every field of one metric |
| PlotOptions.TreeCheck | ush/metviewer/make_multi_mv_vx_plots.py:215-251 | the same over the whole configuration |
| PlotOptions.ThreshListCheck | ush/metviewer/make_multi_mv_vx_plots.py:211-251 | the configuration passes exactly when each metric that needs thresholds has a non-empty list at every level and each other metric has an empty one; the error names the offending metric, field and level |
| PlotOptions.DropAbsentStep | ush/metviewer/make_multi_mv_vx_plots.py:264-268 | one turn of the clean-up loop: an absent value moves from the kept list to the dropped list, a present one stays |
| PlotOptions.DropAbsent | ush/metviewer/make_multi_mv_vx_plots.py:263-268 | iterating over a copy while removing from the list keeps exactly the values present in the configuration, in order, and drops exactly the absent ones |
| PlotOptions.DropIfAbsent | ush/metviewer/make_multi_mv_vx_plots.py:264-268 | list.remove on the current value removes that value's occurrence, so the loop state advances by one value |
| PlotOptions.AbsentWarnings | ush/metviewer/make_multi_mv_vx_plots.py:269-293 | one warning per removed value, naming the axis, the option and the value |
| PlotOptions.CleanAxis | ush/metviewer/make_multi_mv_vx_plots.py:258-413 | one axis of the clean-up: the include-only list, then the exclude list, keep exactly their present values, with a warning for each absent one |
| PlotOptions.AbsentWarned | ush/metviewer/make_multi_mv_vx_plots.py:262-293 | the warnings of one axis are exactly one per listed value the configuration lacks, include-only and exclude alike |
| PlotOptions.CombinedWarnings | ush/metviewer/make_multi_mv_vx_plots.py:258-413 | the warnings of the four axes together are exactly the absent values of all eight options |
| PlotOptions.CleanedByAxis | ush/metviewer/make_multi_mv_vx_plots.py:258-413 | cleaning the four axes one by one cleans the options as a whole |
| PlotOptions.CleanOptions | ush/metviewer/make_multi_mv_vx_plots.py:258-413 | the four clean-up loops leave each option list holding exactly its values that occur in the configuration, and warn exactly for the others |
| PlotOptions.FirstEmptiedInclOnly | ush/metviewer/make_multi_mv_vx_plots.py:415-443 | the check stops on the first axis whose include-only list was given but emptied by the clean-up, and on none exactly when no list was emptied |
| PlotTree.WithoutMetrics | ush/metviewer/make_multi_mv_vx_plots.py:457-466 | popping metric keys keeps exactly the entries whose metric is not popped |
| PlotTree.WithoutFields | ush/metviewer/make_multi_mv_vx_plots.py:496-508 | popping field keys from one metric keeps exactly the fields not popped |
| PlotTree.WithoutLevels | ush/metviewer/make_multi_mv_vx_plots.py:547-560 | popping level keys from one field keeps exactly the levels not popped |
| PlotTree.WithoutMetricsPaths | ush/metviewer/make_multi_mv_vx_plots.py:456-466 | popping metrics removes exactly the key paths that start at a popped metric |
| PlotTree.FieldsWithoutPaths | ush/metviewer/make_multi_mv_vx_plots.py:494-508 | popping a field under every metric removes exactly the paths through it and keeps every metric key |
| PlotTree.FieldsWithoutMetric | ush/metviewer/make_multi_mv_vx_plots.py:494-508 | the field pops leave every metric key in place, even one whose dict they empty |
| PlotTree.FieldsWithoutOrigin | ush/metviewer/make_multi_mv_vx_plots.py:494-508 | every metric entry after the field pops comes from an entry of the input with the same metric, and its fields are fields of that entry that were not popped |
| PlotTree.FieldsWithoutImage | ush/metviewer/make_multi_mv_vx_plots.py:494-508 | every metric entry of the input has an entry after the field pops that keeps all its fields that were not popped |
| PlotTree.FieldsWithoutField | ush/metviewer/make_multi_mv_vx_plots.py:494-508 | a metric-field path survives the field pops exactly when its field is not popped |
| PlotTree.FieldsWithoutLevel | ush/metviewer/make_multi_mv_vx_plots.py:494-508 | a level path survives the field pops exactly when its field is not popped |
| PlotTree.FieldsWithoutThresh | ush/metviewer/make_multi_mv_vx_plots.py:494-508 | a threshold path survives the field pops exactly when its field is not popped |
| PlotTree.LevelsWithoutPaths | ush/metviewer/make_multi_mv_vx_plots.py:544-560 | popping a level under every metric and field removes exactly the paths through it and keeps every metric and field key |
| PlotTree.LevelsWithoutMetric | ush/metviewer/make_multi_mv_vx_plots.py:544-560 | the level pops leave every metric key in place |
| PlotTree.LevelsWithoutField | ush/metviewer/make_multi_mv_vx_plots.py:544-560 | the level pops leave every metric-field key in place |
| PlotTree.LevelsWithoutLevel | ush/metviewer/make_multi_mv_vx_plots.py:544-560 | a level path survives the level pops exactly when its level is not popped |
| PlotTree.LevelsWithoutThresh | ush/metviewer/make_multi_mv_vx_plots.py:544-560 | a threshold path survives the level pops exactly when its level is not popped |
| PlotTree.LevelKept | ush/metviewer/make_multi_mv_vx_plots.py:544-560 | a level entry that is not popped is still reachable, with its threshold list unchanged |
| PlotTree.LevelOrigin | ush/metviewer/make_multi_mv_vx_plots.py:544-560 | every level entry left after the pops was not popped and comes from the input |
| PlotTree.ThreshFilteredPaths | ush/metviewer/make_multi_mv_vx_plots.py:602-627 | filtering the threshold lists removes exactly the threshold paths the filter rejects and keeps every key path |
| PlotTree.ThreshFilteredMetric | ush/metviewer/make_multi_mv_vx_plots.py:602-627 | the threshold filter keeps every metric key |
| PlotTree.ThreshFilteredField | ush/metviewer/make_multi_mv_vx_plots.py:602-627 | the threshold filter keeps every metric-field key |
| PlotTree.ThreshFilteredLevel | ush/metviewer/make_multi_mv_vx_plots.py:602-627 | the threshold filter keeps every level key, even when it empties the level's list |
| PlotTree.ThreshFilteredThresh | ush/metviewer/make_multi_mv_vx_plots.py:602-627 | a threshold survives the filter exactly when it was listed at that level and the filter keeps it |
| PlotTree.FilteredFieldAt | ush/metviewer/make_multi_mv_vx_plots.py:603-626 | the filtered tree has the same metric and field keys at the same positions |
| PlotTree.FilteredLevelKept | ush/metviewer/make_multi_mv_vx_plots.py:603-626 | every level entry of the input has a filtered counterpart with the same keys |
| PlotTree.FilteredLevelOrigin | ush/metviewer/make_multi_mv_vx_plots.py:603-626 | every level entry of the filtered tree has a counterpart in the input with the same keys |
| PlotTree.DropEmptyMetrics | ush/metviewer/make_multi_mv_vx_plots.py:513-649 | popping empty metrics keeps exactly the metric entries whose field dict is non-empty |
| PlotTree.DropEmptyFields | ush/metviewer/make_multi_mv_vx_plots.py:568-647 | popping empty fields keeps exactly the field entries whose level dict is non-empty |
| PlotTree.DropThreshlessLevels | ush/metviewer/make_multi_mv_vx_plots.py:644-645 | the level entries popped are exactly those with an empty list under a metric that needs thresholds |
| PlotTree.DropEmptyMetricsPaths | ush/metviewer/make_multi_mv_vx_plots.py:510-515 | after popping empty metrics none is left; no path is added; every field, level and threshold path stays |
| PlotTree.EmptyFieldsDroppedPaths | ush/metviewer/make_multi_mv_vx_plots.py:562-569 | popping empty fields adds no path, keeps every level and threshold path, and leaves no empty field |
| PlotTree.EmptyFieldsDroppedOrigin | ush/metviewer/make_multi_mv_vx_plots.py:562-569 | every metric entry after popping empty fields comes from the input with the same metric, and its fields are fields of that entry |
| PlotTree.EmptyFieldsDroppedAddsNone | ush/metviewer/make_multi_mv_vx_plots.py:562-569 | popping empty fields adds no key path |
| PlotTree.EmptyFieldsDroppedKeepsLevels | ush/metviewer/make_multi_mv_vx_plots.py:562-569 | popping empty fields keeps every level and threshold path |
| PlotTree.PruneLevelStagePaths | ush/metviewer/make_multi_mv_vx_plots.py:562-571 | the level-stage clean-up leaves no empty field, adds no path and keeps every level and threshold path |
| PlotTree.PruneLevelStageEntries | ush/metviewer/make_multi_mv_vx_plots.py:562-571 | every level entry after the level-stage clean-up is a level entry of the input under the same metric |
| PlotTree.ThreshlessDroppedPaths | ush/metviewer/make_multi_mv_vx_plots.py:636-645 | popping threshold-less levels leaves none, adds no path, keeps every threshold path and every level of a metric that needs no threshold |
| PlotTree.ThreshlessOrigin | ush/metviewer/make_multi_mv_vx_plots.py:636-645 | every field entry after that pop comes from the input under the same metric |
| PlotTree.ThreshlessKept | ush/metviewer/make_multi_mv_vx_plots.py:636-645 | a level entry that does not qualify for the pop is still reachable |
| PlotTree.PruneThreshStagePaths | ush/metviewer/make_multi_mv_vx_plots.py:629-649 | the threshold-stage clean-up leaves no empty field and no threshold-less level, adds no path, and keeps every threshold path and every level of a metric that needs no threshold |
| PlotTree.LevelJobsIff | ush/metviewer/make_multi_mv_vx_plots.py:910-941 | the calls for one field's levels are exactly one per level and threshold of that level, the empty threshold standing in when the metric needs none |
| PlotTree.FieldJobsIff | ush/metviewer/make_multi_mv_vx_plots.py:896-941 | the same for every field of one metric |
| PlotTree.JobsIff | ush/metviewer/make_multi_mv_vx_plots.py:874-941 | a call is made exactly for a metric, field and level entry of the tree and one of that level's plotted thresholds |
| PlotTree.JobsPaths | ush/metviewer/make_multi_mv_vx_plots.py:874-941 | the dispatch loop makes a call exactly for each threshold path of a metric that needs thresholds and each level path, with the empty threshold, of a metric that needs none |
| PlotTree.JobsNonEmpty | ush/metviewer/make_multi_mv_vx_plots.py:651-670 | a non-empty pruned configuration yields at least one call |
| PlotParams.CompOperXml | ush/metviewer/make_single_mv_vx_plot.py:145-151 | exactly the four operators lt, le, gt and ge have a database spelling |
| PlotParams.CompOperIsEscapedSymbol | ush/metviewer/make_single_mv_vx_plot.py:145-149 | each operator's database spelling is its comparison symbol with `<` and `>` written as XML entities |
| PlotParams.ThreshInfoFrom | ush/metviewer/make_single_mv_vx_plot.py:100-198 | the empty threshold gives the all-empty record; an error needs a non-empty threshold; an accepted threshold keeps its text, has a non-empty value and a known operator, and its database form is the escaped operator followed by the value |
| PlotParams.ThreshInfoOfParts | ush/metviewer/make_single_mv_vx_plot.py:137-178 | a threshold written as operator letters, a number and unit letters yields exactly those pieces, or the operator error when the operator is unknown |
| PlotParams.ThreshInfoOfMatch | ush/metviewer/make_single_mv_vx_plot.py:137-178 | get_thresh_info builds its record from the first match of the pattern, or rejects its operator |
| PlotParams.ThreshInfoRoundTrip | ush/metviewer/make_single_mv_vx_plot.py:100-198 | the corrected get_thresh_info takes apart any operator-number-units threshold into those pieces, with the title spelling of the units |
| PlotParams.NoDigitThreshRejected | ush/metviewer/make_single_mv_vx_plot.py:180-189 | a non-empty threshold without a digit stops with the invalid-format error |
| PlotParams.GeFiveMpsMatch | ush/metviewer/make_single_mv_vx_plot.py:137 | "ge5mps" splits into "ge", "5" and "mps" |
| PlotParams.MpsKeptAsWritten | ush/metviewer/make_single_mv_vx_plot.py:171-172 | as written, the second replace overwrites the first, so "ge5mps" gets the title "&gt;= 5 mps" |
| PlotParams.MpsRewritten | ush/metviewer/make_single_mv_vx_plot.py:169-178 | with both replacements applied, "ge5mps" gets the title "&gt;= 5 m/s" |
| PlotParams.GeFiveMpsInfo | ush/metviewer/make_single_mv_vx_plot.py:137-178 | the record of "ge5mps" for any title spelling of its units |
| PlotParams.UnitsPerSlash | ush/metviewer/make_single_mv_vx_plot.py:169-172 | with both replacements, "mps" reads "m/s" and "Jpkg" reads "J/kg" in the title |
| PlotParams.OtherUnitsUnchanged | ush/metviewer/make_single_mv_vx_plot.py:171-172 | units containing neither "mps" nor "Jpkg" appear in the title unchanged |
| PlotParams.LevelGroups | ush/metviewer/make_single_mv_vx_plot.py:732-739 | the value group holds only digits and dots; both groups are empty when findall finds nothing |
| PlotParams.LevelGroupsOfToken | ush/metviewer/make_single_mv_vx_plot.py:732-736 | digits followed by letters split into exactly the digits and the letters |
| PlotParams.ParseLevel | ush/metviewer/make_single_mv_vx_plot.py:709-777 | a level not valid for the field stops first; parsing fails exactly then or when the units are not '', h, m or mb; a parsed level's unpadded value is its value with leading zeros stripped, and the padded value strips to it and is as wide as the units require |
| PlotParams.LevelTokenParsed | ush/metviewer/make_single_mv_vx_plot.py:732-777 | a valid level of digits and h, m or mb keeps its digits and units and is zero-padded to 2, 2 or 3 digits |
| PlotParams.UnknownLevelUnits | ush/metviewer/make_single_mv_vx_plot.py:741-757 | unknown units end in a NameError, because the error message reads loa_value_no0pad before it is assigned |
| PlotParams.SurfaceLevelParsed | ush/metviewer/make_single_mv_vx_plot.py:732-777 | the surface level "L0" has empty value and units |
| PlotParams.FirstLevelNotInMaster | ush/metviewer/make_single_mv_vx_plot.py:243-280 | none is found exactly when every field's valid levels are in the master list; otherwise the field and level returned are a real offending pair |
| PlotParams.CheckFieldLevels | ush/metviewer/make_single_mv_vx_plot.py:243-280 | the loop over fields and their levels passes exactly when every level is in the master list, and otherwise stops on the first offender in configuration order |
| PlotParams.InclEnsMeans | ush/metviewer/make_single_mv_vx_plot.py:700-707 | the command-line value when given; otherwise ensemble means are included for the bias metric only |
| PlotParams.EffectiveThreshold | ush/metviewer/make_single_mv_vx_plot.py:787-801 | a metric that needs no threshold gets the empty threshold; otherwise the given threshold is kept |
| PlotParams.VarLvlThreshShape | ush/metviewer/make_single_mv_vx_plot.py:839-842 | var_lvl_str is the upper-cased field, value and units; the threshold string is operator, value and units; an underscore and the threshold string follow only when it is non-empty |
| PlotParams.JoinEmptyFree | ush/metviewer/make_single_mv_vx_plot.py:840-841 | `''.join(filter(None, ...))` is plain concatenation |
| PlotParams.OutputXmlFnShape | ush/metviewer/make_single_mv_vx_plot.py:1056-1059 | the xml name is plot_<metric>_<field and level>[_<threshold>]_<models>.xml; an empty threshold is skipped with its underscore |
| PlotParams.LineTypesCount | ush/metviewer/make_single_mv_vx_plot.py:861-919 | there is one line type for every series: the members of each model, plus one mean per model when means are included |
| PlotParams.BuildLineTypes | ush/metviewer/make_single_mv_vx_plot.py:861-864 | the append/extend loop builds, per model, a "b" for its mean when means are included, then an "l" per member; its length is num_series |
| PlotParams.OrderSeries | ush/metviewer/make_single_mv_vx_plot.py:920 | order_series is 1, 2, ..., num_series |
| PlotParams.LineWidths | ush/metviewer/make_single_mv_vx_plot.py:866 | one width of 1 per ensemble member of every model |
| PlotParams.RoundSixteenth | ush/metviewer/make_single_mv_vx_plot.py:915-916 | Python's round(n/16): within a half of n/16, with halves going to the even integer |
| PlotParams.RangeLen | ush/metviewer/make_single_mv_vx_plot.py:905-906 | len(range(0, stop, step)) is the least count whose multiple of step reaches stop |
| PlotParams.AccumLevelValue | ush/metviewer/make_single_mv_vx_plot.py:732-736 | an accumulation level such as "06h" splits into its digits and "h" |
| PlotParams.AccumHours | ush/metviewer/make_single_mv_vx_plot.py:894-895 | int() of the digits of 01h, 03h, 06h and 24h is 1, 3, 6 and 24 |
| PlotParams.AccumHrs | ush/metviewer/make_single_mv_vx_plot.py:894-895 | each accumulation level spans the number of hours it names |
| PlotParams.MetricIntervalHrs | ush/metviewer/make_single_mv_vx_plot.py:891-901 | the interval is positive: an accumulation's own hours, 12 for the three upper-air levels, otherwise 1 |
| PlotParams.XtickLabelFreq | ush/metviewer/make_single_mv_vx_plot.py:868-916 | 0 for rely and rhist; unset for a metric outside the seven known ones; otherwise the number of forecast hours at the metric's interval divided by 16, rounded as Python rounds |
| PlotParams.FieldNameInDb | ush/metviewer/make_single_mv_vx_plot.py:922-925 | outside the ensemble-frequency metrics the database name is the upper-cased field, with APCP followed by the first two characters of the accumulation |
| PlotParams.FieldNameThreeDecimals | ush/metviewer/make_single_mv_vx_plot.py:926-956 | for auc, brier and rely the name ends with the threshold value padded to three decimals: 6.350, 12.700, 25.400 |
| PlotParams.FieldNameEndsWithValue | ush/metviewer/make_single_mv_vx_plot.py:926-956 | for auc, brier and rely the name ends with the threshold value and its padding |
| PlotParams.EnsFreqEnds | ush/metviewer/make_single_mv_vx_plot.py:927-929 | the ENS_FREQ name ends with the operator and value |
| PlotParams.MetricNameMv | ush/metviewer/make_single_mv_vx_plot.py:959-962 | bias, auc and brier get their METviewer statistic names ME, PSTD_ROC_AUC and PSTD_BRIER; every other metric is its upper-cased name |
| PlotParams.ObsType | ush/metviewer/make_single_mv_vx_plot.py:966-980 | precipitation is CCPA and reflectivity and echo top MRMS; the observation type is empty only for a field and level that no branch names |
| PlotParams.TemplateFn | ush/metviewer/make_single_mv_vx_plot.py:1033-1040 | auc/brier, bias/fbias and rely/rhist share one template each; every other metric has <metric>.xml; the name always ends in .xml |
| PlotRegex.LetterEnd | ush/metviewer/make_single_mv_vx_plot.py:137 | the greedy `[A-Za-z]+`/`[A-Za-z]*` run from a position stops at the first non-letter or the end |
| PlotRegex.DigitEnd | ush/metviewer/make_single_mv_vx_plot.py:137 | the greedy `\d*` run stops at the first non-digit or the end |
| PlotRegex.DotEnd | ush/metviewer/make_single_mv_vx_plot.py:137 | the greedy `\.*` run stops at the first non-dot or the end |
| PlotRegex.LetterEndAt | ush/metviewer/make_single_mv_vx_plot.py:137 | the letter run ends at any position bounding a block of letters, so the end is unique |
| PlotRegex.DigitEndAt | ush/metviewer/make_single_mv_vx_plot.py:137 | the digit run's end is unique in the same way |
| PlotRegex.DotEndAt | ush/metviewer/make_single_mv_vx_plot.py:137 | the dot run's end is unique in the same way |
| PlotRegex.NumberEnd | ush/metviewer/make_single_mv_vx_plot.py:137 | a match of `\d*\.*\d+` covers only digits and dots, ends in a digit and is not followed by one; there is none only when no digit can start it |
| PlotRegex.NumberEndOfDigits | ush/metviewer/make_single_mv_vx_plot.py:137 | without dots the number group takes the whole run of digits, backtracking one digit for `\d+` |
| PlotRegex.NumberEndOfDotted | ush/metviewer/make_single_mv_vx_plot.py:137 | with dots the number group takes the digits, the dots and the digits after them |
| PlotRegex.NumberEndOf | ush/metviewer/make_single_mv_vx_plot.py:137 | the number group takes all of digits, dots and digits when nothing after can continue it |
| PlotRegex.FirstMatchIsFirst | ush/metviewer/make_single_mv_vx_plot.py:137 | a match found by the left-to-right scan is at the first position where the pattern matches |
| PlotRegex.FirstMatchNone | ush/metviewer/make_single_mv_vx_plot.py:137 | when the scan finds nothing, the pattern matches at no position |
| PlotRegex.FirstMatchNoneIf | ush/metviewer/make_single_mv_vx_plot.py:137 | when the pattern matches at no position, the scan finds nothing |
| PlotRegex.ThreshPieces | ush/metviewer/make_single_mv_vx_plot.py:137 | the three groups cut at the run boundaries are letters, a number and letters, and together they are the matched text |
| PlotRegex.ThreshAt | ush/metviewer/make_single_mv_vx_plot.py:137 | an anchored threshold match has non-empty operator letters, a number ending in a digit and unit letters (non-empty in the variant that requires them), and the groups spell the matched text |
| PlotRegex.FindThreshFrom | ush/metviewer/make_single_mv_vx_plot.py:137 | the first threshold match from a position has the same shape |
| PlotRegex.FindThreshOfRuns | ush/metviewer/make_single_mv_vx_plot.py:137 | when the pattern matches at the start and the three runs cover the string, findall's first match is the three runs |
| PlotRegex.ConcatPieces | ush/metviewer/make_single_mv_vx_plot.py:137 | the slices and characters of three concatenated parts are those parts |
| PlotRegex.OperRun | ush/metviewer/make_single_mv_vx_plot.py:137 | the operator run of operator, number and units ends where the number starts |
| PlotRegex.NumberRun | ush/metviewer/make_single_mv_vx_plot.py:137 | the number group of operator, number and units takes the whole number |
| PlotRegex.UnitsRun | ush/metviewer/make_single_mv_vx_plot.py:137 | the units run takes the rest of the string |
| PlotRegex.ThreshRoundTrip | ush/metviewer/make_single_mv_vx_plot.py:137 | findall on operator letters, a number and unit letters returns exactly those three groups |
| PlotRegex.DigitsThreshRoundTrip | ush/metviewer/make_single_mv_vx_plot.py:137 | the same for a number made of digits only |
| PlotRegex.NoDigitNoThresh | ush/metviewer/make_single_mv_vx_plot.py:137-189 | a string without a digit has no threshold match |
| PlotRegex.LevelPieces | ush/metviewer/make_single_mv_vx_plot.py:732 | the two groups cut at the run boundaries are a number and letters, and together they are the matched text |
| PlotRegex.LevelAt | ush/metviewer/make_single_mv_vx_plot.py:732 | an anchored level match is a number ending in a digit followed by at least one letter, spelling the matched text |
| PlotRegex.FindLevelFrom | ush/metviewer/make_single_mv_vx_plot.py:732 | the first level match from a position has the same shape |
| PlotRegex.FindLevelOfRuns | ush/metviewer/make_single_mv_vx_plot.py:732 | when the number and letter runs from the start cover the string, findall's first match is the two runs |
| PlotRegex.LevelRuns | ush/metviewer/make_single_mv_vx_plot.py:732 | the number group of number plus units takes the number and the letter group the units |
| PlotRegex.LevelRoundTrip | ush/metviewer/make_single_mv_vx_plot.py:732 | findall on a number followed by unit letters returns exactly those two groups |
| PlotRegex.DigitsLevelRoundTrip | ush/metviewer/make_single_mv_vx_plot.py:732 | the same for a number made of digits only, such as "850mb" |
| PlotRegex.SurfaceLevelNoMatch | ush/metviewer/make_single_mv_vx_plot.py:732-739 | "L0" has no letter after its digit, so findall returns nothing |
| PlotModels.SortedModels | ush/metviewer/make_single_mv_vx_plot.py:546 | model_info sorted on the long names is a permutation of the database's models, in long-name order |
| PlotModels.SortedShorts | ush/metviewer/make_single_mv_vx_plot.py:546-550 | sorting keeps the set of short names |
| PlotModels.CheckModels | ush/metviewer/make_single_mv_vx_plot.py:552-613 | the three checks pass exactly when the short names are distinct, all in the database, and the threshold is empty or valid for it; the duplicate error lists exactly the names given more than once; the unknown-model error names a missing model; the threshold error comes only after both model checks pass |
| PlotModels.LongNamesToPlot | ush/metviewer/make_single_mv_vx_plot.py:616-625 | one long name per requested model, sorted, and a permutation of the long names of the requested short names |
| PlotModels.ReorderedShorts | ush/metviewer/make_single_mv_vx_plot.py:626-631 | one reordered short name per requested model |
| PlotModels.ReorderedEnsMems | ush/metviewer/make_single_mv_vx_plot.py:638 | one member count per requested model |
| PlotModels.RemapColors | ush/metviewer/make_single_mv_vx_plot.py:632-634 | the colours follow their models: the k-th new colour is the colour given for the k-th reordered model; list.index raises ValueError for a model not in the original list and indexing raises IndexError when colours run out |
| PlotModels.FirstNonPositive | ush/metviewer/make_single_mv_vx_plot.py:639-641 | the first model, in plot order, with no ensemble members; none exactly when every count is positive |
| PlotModels.CheckEnsMems | ush/metviewer/make_single_mv_vx_plot.py:636-650 | the check passes exactly when every model to plot has a positive member count, and otherwise names the first one that has none |
| PlotModels.IndexOfNoDup | ush/metviewer/make_single_mv_vx_plot.py:626-632 | in a list without duplicates, list.index of the j-th element is j |
| PlotModels.ShortLongShort | ush/metviewer/make_single_mv_vx_plot.py:616-631 | with distinct long names, short name to long name to short name gives the short name back |
| PlotModels.LongShortLong | ush/metviewer/make_single_mv_vx_plot.py:616-631 | with distinct short names, long name to short name to long name gives the long name back |
| PlotModels.MapRoundTrip | ush/metviewer/make_single_mv_vx_plot.py:616-631 | mapping the requested short names to long names and back gives the requested list |
| PlotModels.ReorderPermutes | ush/metviewer/make_single_mv_vx_plot.py:626-631 | the reordered short names are a permutation of the requested ones |
| PlotModels.ReorderFollowsLongNames | ush/metviewer/make_single_mv_vx_plot.py:625-631 | the k-th reordered short name belongs to the k-th sorted long name |
| PlotModels.SortedFacts | ush/metviewer/make_single_mv_vx_plot.py:546-550 | sorting keeps the database well formed and every requested model findable |
| PlotModels.ReorderIsPermutation | ush/metviewer/make_single_mv_vx_plot.py:616-631 | the models are plotted in alphabetical order of their long names, and each requested model exactly once |
| PlotModels.WellFormedSorted | ush/metviewer/make_single_mv_vx_plot.py:546 | sorting keeps long and short names distinct |
| PlotModels.ColorsFollowModels | ush/metviewer/make_single_mv_vx_plot.py:630-634 | with enough colours the remap succeeds, and the model-colour pairs after reordering are the pairs given on the command line, in another order |
| PlotModels.Colored | ush/metviewer/make_single_mv_vx_plot.py:632-634 | each name is paired with the colour at its position in the original list |
| PlotModels.ColoredPermutes | ush/metviewer/make_single_mv_vx_plot.py:632-634 | permuting the names permutes the name-colour pairs |
| PlotModels.ColoredInPlace | ush/metviewer/make_single_mv_vx_plot.py:632-634 | without reordering, each name keeps its own colour |
| PlotModels.ReorderedHaveColors | ush/metviewer/make_single_mv_vx_plot.py:632-634 | every reordered model is in the original list at a position that has a colour |
| PlotModels.TooFewColors | ush/metviewer/make_single_mv_vx_plot.py:632-634 | fewer colours than models ends in IndexError during the remap |
| PlotModels.NameToPlotKnown | ush/metviewer/make_single_mv_vx_plot.py:616-626 | every long name to plot is a long name of the database, so list.index finds it |
| PlotModels.ModelOfLongInDb | ush/metviewer/make_single_mv_vx_plot.py:626-638 | the model found by long name after sorting is a model of the database with the same short name and member count |
| PlotModels.EnsMemsFollowModels | ush/metviewer/make_single_mv_vx_plot.py:631-638 | the k-th member count is that of the database model with the k-th reordered short name |
| SinglePlot.CommandLine.constructor | ush/metviewer/make_single_mv_vx_plot.py:446-447 | the namespace holds exactly the parsed values |
| SinglePlot.ReorderModels | ush/metviewer/make_single_mv_vx_plot.py:615-667 | the namespace's models are put in long-name order with their colours following them; the stage succeeds exactly when the colour remap, the ensemble-size check and the colour-count check pass, and then returns the positive member counts in the new order |
| SinglePlot.ReorderKeepsPairs | ush/metviewer/make_single_mv_vx_plot.py:620-634 | after a checked reordering the models are a permutation of those requested and each keeps the colour it was given |
| SinglePlot.PrepareModels | ush/metviewer/make_single_mv_vx_plot.py:495-667 | an unknown host stops first, then an unknown database, then the model and threshold checks against the database; on success the counts are those of the reordered models and each model keeps its colour |
| SinglePlot.Settled | ush/metviewer/make_single_mv_vx_plot.py:700-830 | the level error comes first, then the threshold's own error, then the units check; success means the level parsed, the threshold in use parsed, and its units are valid for the field (or there is no threshold) |
| SinglePlot.SettleLevelAndThreshold | ush/metviewer/make_single_mv_vx_plot.py:700-830 | incl_ens_means is made explicit; once the level parses, a threshold the metric does not need is reset to ''; the result is the settled level and threshold, with the title units of the corrected get_thresh_info ("mps" becomes "m/s") |
| SinglePlot.AsNats | ush/metviewer/make_single_mv_vx_plot.py:636-650 | positive member counts carried over unchanged |
| SinglePlot.MakeVars | ush/metviewer/make_single_mv_vx_plot.py:832-1023 | the template values agree with the settled command line: titles, names, database names, series counts and line styles |
| SinglePlot.FillTemplate | ush/metviewer/make_single_mv_vx_plot.py:832-1060 | the template stage succeeds exactly when xtick_label_freq is set, and otherwise stops with a NameError; on success it names the metric's template and the xml path plots/<xml name> under the output directory (not resolved to an absolute path); the threshold record it is given is the corrected get_thresh_info's |
| SinglePlot.GenerateMetviewerXml | ush/metviewer/make_single_mv_vx_plot.py:460-1089 | the stages run in order and the first failure stops it; the namespace ends rewritten as far as it got; success means every check passed and xtick_label_freq is set, and then the template values, template name and xml path follow from the rewritten command line, with the corrected title units |
| SinglePlot.MakeSingleMvVxPlot | ush/metviewer/make_single_mv_vx_plot.py:1133-1250 | a field level missing from the master list stops first and leaves the namespace untouched; otherwise the xml generation runs, and the whole succeeds exactly when both do; title units as in the corrected get_thresh_info |
| OlderPlot.NamesInDb | ush/metviewer/plot_vx_metviewer.py:493-495 | one database long name per model to plot, in command-line order, taken from a database entry with that short name |
| OlderPlot.EnsMemsByModel | ush/metviewer/plot_vx_metviewer.py:493-499 | one ensemble size per model to plot, in command-line order, taken from a database entry with that short name |
| OlderPlot.EnsOfShortUnique | ush/metviewer/plot_vx_metviewer.py:493-499 | when the database lists each short name once, the first entry found by `index` carries that model's own ensemble size |
| OlderPlot.CheckModelsInOrder | ush/metviewer/plot_vx_metviewer.py:453-542 | the model checks pass exactly when every model is in the database, the threshold is empty or listed, every ensemble size is positive, no model is named twice and there are no more models than colours; each error names the first failing check in source order with its offending value |
| OlderPlot.OlderEnsByName | ush/metviewer/plot_vx_metviewer.py:493-499 | on a database with unique short names, each model's ensemble size is the one of its short name |
| OlderPlot.NewerEnsByName | ush/metviewer/make_single_mv_vx_plot.py:546-634 | after the newer script sorts the database and reorders the models, each ensemble size still belongs to the reordered short name at the same position |
| OlderPlot.PositiveOnPermutation | ush/metviewer/make_single_mv_vx_plot.py:616-650 | two lists holding the same names have all ensemble sizes positive together, so the reordering does not change the ensemble-size check |
| OlderPlot.SameModelsAccepted | ush/metviewer/plot_vx_metviewer.py:453-542 | on a well-formed database the older script accepts exactly the model lists the newer script accepts |
| OlderPlot.UnknownReportedBeforeDuplicates | ush/metviewer/plot_vx_metviewer.py:453-525 | with one model named twice and another unknown, the older script reports the unknown model and the newer one the repeated model |
| OlderPlot.CommandLineAfter | ush/metviewer/plot_vx_metviewer.py:568-660 | generate_metviewer_xml rewrites only the ensemble-mean flag and the threshold on the command line; the models and colours are left as given |
| OlderPlot.CheckRequest | ush/metviewer/plot_vx_metviewer.py:412-542 | fails on an unknown host, then on an unknown database, then with the first failed model check; on success it returns the database names and the positive ensemble sizes of the models, in command-line order |
| OlderPlot.GenerateMetviewerXml | ush/metviewer/plot_vx_metviewer.py:389-928 | fails with the first failed stage; the command line ends up as CommandLineAfter describes; on success it returns the host's batch script, the template named by the statistic, the xml path under the output directory's plots folder, and template variables matching the request, with the corrected title units ("m/s" for "mps") |
| OlderPlot.PlotVxMetviewer | ush/metviewer/plot_vx_metviewer.py:959-1045 | a field level missing from the master list (checked by get_static_info, lines 215-234, which this calls first) stops the run before anything else and leaves the command line as it was; otherwise the run succeeds exactly when every check of the xml generation passes, with the corrected title units |
| UtilsPlot.Keys | ush/python_utils/metviewer/plot_vx_metviewer.py:86-97 | the names of the configuration entries, in file order |
| UtilsPlot.LevelLists | ush/python_utils/metviewer/plot_vx_metviewer.py:92-114 | each variable's list of valid levels, in file order |
| UtilsPlot.ThreshLists | ush/python_utils/metviewer/plot_vx_metviewer.py:93-119 | each variable's list of valid thresholds, in file order |
| UtilsPlot.SortedDistinct | ush/python_utils/metviewer/plot_vx_metviewer.py:114-122 | `sorted(list(set(...)))` gives the sorted list of the distinct items |
| UtilsPlot.VarMapsStep | ush/python_utils/metviewer/plot_vx_metviewer.py:90-93 | one pass of the variable loop adds that variable's long name, levels and thresholds and keeps every earlier entry |
| UtilsPlot.LoadVarMaps | ush/python_utils/metviewer/plot_vx_metviewer.py:86-93 | after the loop the three maps hold exactly the file's variables with their long names, levels and thresholds |
| UtilsPlot.StatMapsStep | ush/python_utils/metviewer/plot_vx_metviewer.py:100-102 | one pass of the statistic loop adds that statistic's long name and threshold need and keeps every earlier entry |
| UtilsPlot.LoadStatMaps | ush/python_utils/metviewer/plot_vx_metviewer.py:97-102 | after the loop the two maps hold exactly the file's statistics with their long names and threshold needs |
| UtilsPlot.LevelChoicesCover | ush/python_utils/metviewer/plot_vx_metviewer.py:114-117 | a level is a command-line choice exactly when some variable lists it |
| UtilsPlot.GetStaticVals | ush/python_utils/metviewer/plot_vx_metviewer.py:74-138 | the maps hold the file's variables and statistics; the choices are the sorted names and the sorted distinct levels and thresholds; a level is a choice exactly when some variable lists it |
| UtilsPlot.ParseLevelToken | ush/python_utils/metviewer/plot_vx_metviewer.py:340-375 | the number loses its leading zeros; the padded number pads it to 2 digits for m, h and hr and to 3 for mb; METviewer's name is Z, P or A plus the number for those units, and the level as given otherwise or when nothing matches |
| UtilsPlot.LevelTokenNamed | ush/python_utils/metviewer/plot_vx_metviewer.py:340-375 | digits with m, mb, h or hr split into the number and the units, and METviewer's name is the unit letter plus the number without leading zeros |
| UtilsPlot.LevelTokenOtherUnits | ush/python_utils/metviewer/plot_vx_metviewer.py:350-369 | digits with other units keep the level's own name and get no padding |
| UtilsPlot.SurfaceLevelKept | ush/python_utils/metviewer/plot_vx_metviewer.py:340-369 | "L0" has no number or units and keeps its name |
| UtilsPlot.LevelParsesAgree | ush/python_utils/metviewer/plot_vx_metviewer.py:340-358 | on a valid level with known units, this script reads the same number, units and padding as make_single_mv_vx_plot.py |
| UtilsPlot.XmlOperAgrees | ush/python_utils/metviewer/plot_vx_metviewer.py:406-412 | on lt, le, gt and ge the escaped operator is the database's escaping |
| UtilsPlot.ParseThreshToken | ush/python_utils/metviewer/plot_vx_metviewer.py:399-420 | no match gives an empty threshold; a one-letter operator fails with an index error; otherwise parsing succeeds exactly when the operator starts with l or g, and then gives the parts and the escaped operator followed by the value |
| UtilsPlot.ThreshTokenOfParts | ush/python_utils/metviewer/plot_vx_metviewer.py:399-414 | operator letters, a number and unit letters parse into those parts, with the index error for a one-letter operator and the unassigned name for a first letter other than l or g |
| UtilsPlot.ThreshTokenAgrees | ush/python_utils/metviewer/plot_vx_metviewer.py:399-414 | for lt, le, gt and ge the xml threshold equals the database threshold of make_single_mv_vx_plot.py |
| UtilsPlot.ThreshStageAsWritten | ush/python_utils/metviewer/plot_vx_metviewer.py:377-397 | as written, a threshold given for a statistic that needs none fails on the undefined name no_thresh_stats; a success keeps the threshold |
| UtilsPlot.ThreshStage | ush/python_utils/metviewer/plot_vx_metviewer.py:377-397 | as intended, a statistic that needs no threshold drops it; one that needs a threshold succeeds exactly when it is valid for the variable |
| UtilsPlot.ThreshStagesDiffer | ush/python_utils/metviewer/plot_vx_metviewer.py:377-384 | the two stages differ exactly on a non-empty threshold the statistic does not need; there the written one fails and the intended one drops it |
| UtilsPlot.LineTypesAsWritten | ush/python_utils/metviewer/plot_vx_metviewer.py:455-480 | looping over every database model succeeds exactly when there are no more database models than selected ones, and then gives one line type per series |
| UtilsPlot.BuildLineTypesAsWritten | ush/python_utils/metviewer/plot_vx_metviewer.py:475-478 | the loop as written gives what LineTypesAsWritten states |
| UtilsPlot.FewerModelsThanDatabase | ush/python_utils/metviewer/plot_vx_metviewer.py:455-478 | selecting only some of the database's models, each once, fails with an index error whatever their ensemble sizes |
| UtilsPlot.LineTypesForSelectedModels | ush/python_utils/metviewer/plot_vx_metviewer.py:475-483 | with one pass per selected model the loop succeeds and gives one line type per series |
| UtilsPlot.LevelStr | ush/python_utils/metviewer/plot_vx_metviewer.py:430-431 | the level shown in titles is empty exactly for no level and for the surface level "L0" |
| UtilsPlot.JoinPairEmptyFree | ush/python_utils/metviewer/plot_vx_metviewer.py:436-437 | joining two parts with "" after dropping empty ones is plain concatenation |
| UtilsPlot.VarLevelThreshShape | ush/python_utils/metviewer/plot_vx_metviewer.py:436-438 | the variable in capitals, then the level (none for "L0"), then "_" and the threshold parts only when there is a threshold |
| UtilsPlot.JoinUnderscorePair | ush/python_utils/metviewer/plot_vx_metviewer.py:438 | two parts joined with "_" after dropping an empty second part |
| UtilsPlot.JobTitlesAgree | ush/python_utils/metviewer/plot_vx_metviewer.py:436-441 | where the level string is the number and units make_single_mv_vx_plot.py parses, the job titles of the two scripts agree |
| UtilsPlot.XmlFileNameShape | ush/python_utils/metviewer/plot_vx_metviewer.py:583-587 | the xml file is named plot_<stat>_<VAR><level>[_<threshold>]_<models>.xml |
| UtilsPlot.JoinedNonEmpty | ush/python_utils/metviewer/plot_vx_metviewer.py:440 | the models joined with "_" are non-empty when the first model is |
| UtilsPlot.VarNameInDb | ush/python_utils/metviewer/plot_vx_metviewer.py:487-492 | outside the ensemble-frequency statistics and rhist, the database name is the variable in capitals, with "_" and the accumulation's first two characters added for APCP |
| UtilsPlot.DbNamesAgree | ush/python_utils/metviewer/plot_vx_metviewer.py:487-492 | for auc, brier and rely the database name is the one make_single_mv_vx_plot.py builds, wherever that script adds no decimal padding |
| UtilsPlot.EnsFreqNamed | ush/python_utils/metviewer/plot_vx_metviewer.py:490-492 | adding "ENS_FREQ" and then the operator and value gives the same name as joining the three at once |
| UtilsPlot.ObsTypeOf | ush/python_utils/metviewer/plot_vx_metviewer.py:502-510 | the observation type is CCPA for apcp, MRMS for refc, ADPSFC or ADPUPA for the five listed variable-level pairs, and empty exactly otherwise |
| UtilsPlot.UpperVarNames | ush/python_utils/metviewer/plot_vx_metviewer.py:436 | tmp, dpt and wind in capitals are TMP, DPT and WIND |
| UtilsPlot.VarLevelStrOf | ush/python_utils/metviewer/plot_vx_metviewer.py:430-436 | a level other than "L0" follows the variable in capitals directly |
| UtilsPlot.ObsTypesAgree | ush/python_utils/metviewer/plot_vx_metviewer.py:502-510 | for tmp, dpt and wind at 2m, 10m, 500mb, 700mb and 850mb, make_single_mv_vx_plot.py always gives a type, and this script gives the same type exactly on tmp 2m, dpt 2m, wind 10m, tmp 850mb and wind 700mb and no type on the other ten |
| UtilsPlot.Tmp500mbObsTypeDiffers | ush/python_utils/metviewer/plot_vx_metviewer.py:502-510 | tmp at 500mb gets no observation type here but ADPUPA in make_single_mv_vx_plot.py |
| UtilsPlot.CommandLine.constructor | ush/python_utils/metviewer/plot_vx_metviewer.py:152-262 | the namespace holds the parsed values |
| UtilsPlot.EnsMemsOf | ush/python_utils/metviewer/plot_vx_metviewer.py:456 | one ensemble size per selected model, in command-line order, from the database entry of that model |
| UtilsPlot.DbNamesOf | ush/python_utils/metviewer/plot_vx_metviewer.py:472 | one database name per selected model, in command-line order |
| UtilsPlot.MakeVars | ush/python_utils/metviewer/plot_vx_metviewer.py:430-551 | the template's names and titles are the ones the settled command line determines; num_models is the number of selected models (the corrected count), not the database's |
| UtilsPlot.CheckEnsSizes | ush/python_utils/metviewer/plot_vx_metviewer.py:457-466 | the loop passes exactly when every selected model's ensemble size is positive |
| UtilsPlot.SettleLevelAndThreshold | ush/python_utils/metviewer/plot_vx_metviewer.py:320-420 | sets incl_ens_means explicitly, true for bias unless given; once the level is valid, drops a threshold the statistic does not need; fails on an invalid level, on an invalid needed threshold, or on an operator it cannot read; otherwise returns the parsed level and threshold; the dropping is the corrected ThreshStage, where the code raises a NameError |
| UtilsPlot.FillTemplate | ush/python_utils/metviewer/plot_vx_metviewer.py:454-598 | succeeds exactly when every ensemble size is positive, and then returns template values matching the command line, the template named by the statistic, and the xml path under the output directory's plots folder (not resolved); line types are built for the selected models (the corrected loop) |
| UtilsPlot.GenerateMetviewerXml | ush/python_utils/metviewer/plot_vx_metviewer.py:265-610 | an unknown host fails first; the command line ends up as StateAfter describes; the run succeeds exactly when every check passes; a statistic that needs no threshold is plotted without one; both corrections of the Findings table apply |
| UtilsPlot.PlotVxMetviewer | ush/python_utils/metviewer/plot_vx_metviewer.py:628-656 | on the static values read from the file, the run succeeds exactly when every check passes and returns the host's batch script; an unknown host fails; both corrections of the Findings table apply |
| UtilsPlot.NoThresholdParsed | ush/python_utils/metviewer/plot_vx_metviewer.py:399-420 | an empty threshold parses to no threshold |
| PyStr.LStripChar | ush/metviewer/make_single_mv_vx_plot.py:757 | `str.lstrip('0')` removes exactly the leading run of zeros, so the result is a suffix not starting with a zero |
| PyStr.ZFill | ush/metviewer/make_single_mv_vx_plot.py:777 | `str.zfill(width)` has length max(len, width); an unsigned string keeps its text at the end with zeros before it |
| PyStr.ZFillStripRoundTrip | ush/metviewer/make_single_mv_vx_plot.py:757-777 | stripping the zeros of a zero-padded level number that had no leading zero gives that number back |
| PyStr.Split | parm/metplus/separate_fcst_obs_info.py:121-158 | `str.split(sep)` gives one more piece than there are separators |
| PyStr.SplitJoinRoundTrip | parm/metplus/separate_fcst_obs_info.py:121-158 | joining the pieces of a split with the separator gives the string back |
| PySeq.SortedSet | ush/python_utils/metviewer/plot_vx_metviewer.py:114-122 | `sorted(list(set(xs)))` is sorted, has no repetition and holds exactly the items of xs |
| PySeq.SortedSetOfAnyOrder | ush/python_utils/metviewer/plot_vx_metviewer.py:117-122 | sorting the distinct items gives the same list whatever order `list(set(...))` produced |
| PySeq.RemoveFirstMultiset | tests/WE2E/run_WE2E_tests.py:286 | `list.remove(x)` on a list holding x takes out exactly one occurrence of x |

## Left out

- Logging: every message the scripts log or print is left out. This includes the warnings of the dispatch loop and `set_leadhrs`'s printing in `main`. Warnings that the model returns as values are the exception.
- Command-line parsing: `argparse` plumbing such as types, defaults and help text is left out. Only the checks the scripts make on the parsed values are modelled. ush/set_leadhrs.py:108 calls `argparse.ArgumentError` with one argument where it takes two, so the run stops with a `TypeError` and no `ArgumentError` is ever raised; `LeadHours.DateInitCheckFails` stands for that stop.
- Reading the configuration files: YAML and database configuration files are taken as already-loaded, typed values, and YAML floats are not modelled. A level entry without a `thresholds` key, a `KeyError` in both multi-plot drivers (ush/metviewer/make_mv_vx_plots.py:156 and ush/python_utils/metviewer/make_mv_vx_plots.py:77), cannot be expressed.
- The output: the jinja2 rendering of the xml, the temporary YAML file, the `set_template` call and the file `separate_fcst_obs_info.py` writes are not part of this model.
- External programs: running the METviewer batch script (`run_mv_batch`, `run_mv_batch_script`) and the subprocess calls are not part of this model.
- Directory housekeeping: creating, renaming and deleting output directories, `check_for_preexisting_dir_file` and `mkdir` are left out. With `--preexisting_dir_method quit` and an existing output directory, `check_for_preexisting_dir_file` raises `FileExistsError` before any plot is made (make_multi_mv_vx_plots.py:86-93, called at 164); the model does not have that failure.
- MakeMultiMvVxPlots: does not fail on an existing output directory under `--preexisting_dir_method quit`, where the script raises `FileExistsError`, because directory state is not modelled.
- Files the single-plot scripts read or create are function parameters; the model does not observe the file system. These are `os.path.isfile`, `isdir`, `islink`, `realpath`, `abspath` and `glob`.
- Each single-plot call is the parameter `render` of `MultiDriver.Env`, which gives the path of the xml it wrote, and the image check is its `isFile`. The image path comes from that xml path. The copy target of the ordered copy is derived from it (`MultiDriver.CopyTarget`) rather than stored. The images themselves and the copy are not made.
- `set_leadhrs`: whether `datetime.strptime` accepts the initialisation date is the parameter `parses`. The METplus template substitution that names each lead hour's file is folded into the parameter `isFile`.
- The forecast initialisation times: the times derived from `fcst_init_info` and the colour hex codes are not passed to the modelled template values. Neither is the plot caption. The date arithmetic is not modelled, and neither are its failures: `datetime.strptime` of the first time and `int` of the count and interval raise `ValueError` on malformed values, and a count of zero makes the `[0]` index raise `IndexError`.
- GenerateMetviewerXml (SinglePlot, OlderPlot and UtilsPlot): succeeds on a malformed `fcst_init_info`, where the scripts raise `ValueError` (make_single_mv_vx_plot.py:678-680, ush/metviewer/plot_vx_metviewer.py:552-554, ush/python_utils/metviewer/plot_vx_metviewer.py:307-309), because the initialisation times are not modelled.
- Regular expressions: only the first match of `re.findall` is modelled (`PlotRegex.FindThresh`, `PlotRegex.FindLevel`), since the scripts only read `[0]`. `\d` is taken as the ASCII digits.
- `list(set(...))`: its order is left unspecified. The model picks some duplicate-free order and proves its properties for whatever order was picked. The sorted uses (`sorted(list(set(...)))` in ush/python_utils/metviewer/plot_vx_metviewer.py) are independent of it. The unsorted ones are not: the filtered threshold lists of make_multi_mv_vx_plots.py:608,625 fix the order of the dispatched calls and so the p<NNN> copy numbers, and run_WE2E_tests.py:290 returns its list in that order. For those the model does not say which order Python produces.
- CheckTests: when tests are still repeated after the symlink pass, the result's order is whatever `list(set(...))` gives; only its items and the absence of repeats are stated.
- `repr` of Python values in messages is not modelled.
- Unicode: `str.upper`, `str.lower`, `str.isspace` and so `strip` are modelled on ASCII characters only (`PyStr.Upper`, `PyStr.Lower`, `PyStr.IsSpace`); Python's are Unicode-aware. Names and values outside ASCII are not modelled faithfully.
- FillTemplate (SinglePlot and UtilsPlot, and OlderPlot through SinglePlot's): the xml directory is `os.path.join(output_dir, 'plots')` without `Path(...).resolve()` (make_single_mv_vx_plot.py:1053, ush/metviewer/plot_vx_metviewer.py:896, ush/python_utils/metviewer/plot_vx_metviewer.py:580), so a relative output directory gives a relative xml path; resolving it needs the current directory and symlinks, which are not modelled.
- Dispatch: each single-plot call `render` is total. In the scripts a call that raises ends the whole driver, since none of the three call sites (make_multi_mv_vx_plots.py:973, ush/metviewer/make_mv_vx_plots.py:186, ush/python_utils/metviewer/make_mv_vx_plots.py:92) catches it. The model describes only runs in which every call returns.
- MakeMvVxPlotsOlder: the same total `render`, so a failing call does not stop the loop as it does in the script.
- MakeMvVxPlotsUtils: returns every argument list the loop would pass; in the script the first call that raises ends the loop, so only a prefix of them is actually called then.
- WE2ETests.CheckTests: the guard before `list.remove` is proved never to fail, so the `ValueError` branch is not modelled.
- SettleLevelAndThreshold (SinglePlot, used by OlderPlot too): returns the corrected get_thresh_info's title units, so "ge5mps" gets "m/s" where make_single_mv_vx_plot.py:171-172 and ush/metviewer/plot_vx_metviewer.py:157-158 keep "mps" (`PlotParams.MpsKeptAsWritten` models the code).
- FillTemplate (SinglePlot): its threshold record is the corrected get_thresh_info's, so the code's "mps" title is not produced.
- GenerateMetviewerXml (SinglePlot and OlderPlot): composes the corrected get_thresh_info, so the title units of "mps" thresholds differ from the code's.
- MakeSingleMvVxPlot: inherits the corrected title units from `SinglePlot.GenerateMetviewerXml`.
- PlotVxMetviewer (OlderPlot): inherits the corrected title units from `OlderPlot.GenerateMetviewerXml`.
- SettleLevelAndThreshold (UtilsPlot): drops a threshold the statistic does not need (`UtilsPlot.ThreshStage`), where the code raises a `NameError` on `no_thresh_stats` (ush/python_utils/metviewer/plot_vx_metviewer.py:377-378; `UtilsPlot.ThreshStageAsWritten` models the code).
- MakeVars (UtilsPlot): passes the number of selected models as `num_models`, where the code passes `len(model_info)`, the database's count (ush/python_utils/metviewer/plot_vx_metviewer.py:455,532).
- FillTemplate (UtilsPlot): builds line types for the selected models (`PlotParams.BuildLineTypes`), so selecting a strict subset of the database's models succeeds where the code raises `IndexError` (476-478; `UtilsPlot.BuildLineTypesAsWritten` models the code).
- GenerateMetviewerXml (UtilsPlot): composes both corrections above, so the code's two failures (the `NameError` and the `IndexError`) are not among its outcomes.
- PlotVxMetviewer (UtilsPlot): inherits both corrections from `UtilsPlot.GenerateMetviewerXml`.
- CheckTaskGetExtrnBcs: uses the corrected redirect, so an existing alternative data directory is used where run_WE2E_tests.py:362-365 raises `FileNotFoundError` (`WE2ETests.ExistingAltDirRejected` models the code).
- StagedBcs: calls the corrected `WE2ETests.RedirectSysBaseDir` rather than `RedirectSysBaseDirAsWritten`, with the same difference.
- OlderPlot and UtilsPlot model their scripts only where they differ from `make_single_mv_vx_plot.py`. Stages identical to it reuse the `SinglePlot` and `PlotParams` members.

## Findings

| source | as written | input that shows it | evidently intended | confidence | as-written member | corrected member |
|---|---|---|---|---|---|---|
| ush/metviewer/make_single_mv_vx_plot.py:171-172 | the second replacement starts again from the original units, so the first one is lost | threshold "ge5mps": title "&gt;= 5 mps" | title "&gt;= 5 m/s" (both replacements applied in turn) | not executed | PlotParams.MpsKeptAsWritten | PlotParams.MpsRewritten |
| ush/python_utils/metviewer/plot_vx_metviewer.py:377-384 | a threshold given with a statistic that needs none builds its message from `no_thresh_stats`, a name defined nowhere, so the run stops before the threshold is reset | statistic with need_thresh false, threshold "ge20" | the threshold is dropped and the plot is made without one | not executed | UtilsPlot.ThreshStageAsWritten, UtilsPlot.ThreshStagesDiffer | UtilsPlot.ThreshStage |
| ush/python_utils/metviewer/plot_vx_metviewer.py:455,476-480 | the line-type loop runs over every model of the database but indexes the ensemble sizes of the selected models | database with models a and b, only a selected: IndexError | one pass per selected model | not executed | UtilsPlot.LineTypesAsWritten, UtilsPlot.FewerModelsThanDatabase | PlotParams.BuildLineTypes, UtilsPlot.LineTypesForSelectedModels |
| tests/WE2E/run_WE2E_tests.py:362-365 | the alternative data directory is used only when it is not an existing directory | an existing alternative directory: rejected | use it when it exists | not executed | WE2ETests.ExistingAltDirRejected | WE2ETests.RedirectSysBaseDir, WE2ETests.ExistingAltDirUsed |
