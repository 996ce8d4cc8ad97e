/**
 * The command-line selection options of make_multi_mv_vx_plots and the
 * checks made on them and on the plot configuration before the tree is
 * reduced: argparse's choices, main's refusal of an include-only list
 * together with an exclude list, the thresholds the database knows, the
 * threshold lists of the configuration, and the clean-up that drops option
 * values absent from the configuration (with a warning each).
 */
module PlotOptions {

  import opened Wrappers
  import opened PyStr
  import opened PySeq
  import opened PlotTree
  import opened PlotFilters

  datatype Axis = MetricAxis | FieldAxis | LevelAxis | ThreshAxis

  /** The order in which the script visits the axes. */
  function Rank(a: Axis): nat
  {
    match a
    case MetricAxis => 0
    case FieldAxis => 1
    case LevelAxis => 2
    case ThreshAxis => 3
  }

  /** --incl_only_X / --excl_X for the four axes. */
  datatype Options = Options(metrics: Selection, fields: Selection, levels: Selection, threshes: Selection)

  function Sel(o: Options, a: Axis): Selection
  {
    match a
    case MetricAxis => o.metrics
    case FieldAxis => o.fields
    case LevelAxis => o.levels
    case ThreshAxis => o.threshes
  }

  /** The valid values read from valid_vx_plot_params.yaml. */
  datatype ValidVals = ValidVals(metrics: seq<string>, fields: seq<string>, levels: seq<string>)

  /** Why a run stops: argparse's exit, or the exception the script raises. */
  datatype Failure =
    | InvalidChoice(axis: Axis, value: string)
    | InclAndExcl(axis: Axis)
    | ThreshesNotInDb(inclOnly: bool, offenders: set<string>)
    | UnknownMetric(metric: string)
    | MissingThreshes(metric: string, field: string, level: string)
    | UnexpectedThreshes(metric: string, field: string, level: string)
    | InclOnlyAllAbsent(axis: Axis)
    | NothingLeft(axis: Axis)

  datatype Warning =
    | AbsentFromConfig(axis: Axis, inclOnly: bool, value: string)
    | NotInReducedConfig(axis: Axis, value: string)

  // ---------------------------------------------------------- argparse

  /** Metric and field values go through type=str.lower; level and
      threshold values are taken as typed. */
  function Normalized(o: Options): Options
  {
    Options(Selection(LowerAll(o.metrics.inclOnly), LowerAll(o.metrics.excl)),
            Selection(LowerAll(o.fields.inclOnly), LowerAll(o.fields.excl)),
            o.levels, o.threshes)
  }

  function LowerAll(vs: seq<string>): (r: seq<string>)
    ensures |r| == |vs| && forall i :: 0 <= i < |vs| ==> r[i] == Lower(vs[i])
  {
    seq(|vs|, i requires 0 <= i < |vs| => Lower(vs[i]))
  }

  /** choices=... on the metric, field and level options (the threshold
      options have none), visited in axis order. */
  function ChoicesCheck(o: Options, vv: ValidVals): (r: Option<Failure>)
    ensures r.None? <==>
              (forall v :: v in o.metrics.inclOnly + o.metrics.excl ==> v in vv.metrics)
              && (forall v :: v in o.fields.inclOnly + o.fields.excl ==> v in vv.fields)
              && (forall v :: v in o.levels.inclOnly + o.levels.excl ==> v in vv.levels)
    ensures r.Some? ==> r.value.InvalidChoice? && r.value.axis != ThreshAxis
  {
    var m := FirstNotIn(o.metrics.inclOnly + o.metrics.excl, vv.metrics);
    var f := FirstNotIn(o.fields.inclOnly + o.fields.excl, vv.fields);
    var l := FirstNotIn(o.levels.inclOnly + o.levels.excl, vv.levels);
    if m.Some? then Some(InvalidChoice(MetricAxis, m.value))
    else if f.Some? then Some(InvalidChoice(FieldAxis, f.value))
    else if l.Some? then Some(InvalidChoice(LevelAxis, l.value))
    else None
  }

  // -------------------------------------------------- main's exclusivity

  predicate BothGiven(o: Options, a: Axis)
  {
    |Sel(o, a).inclOnly| > 0 && |Sel(o, a).excl| > 0
  }

  /** main raises ValueError for the first axis, in the order metrics,
      fields, levels, thresholds, given both an include-only and an exclude
      list. */
  function FirstBothGiven(o: Options): (r: Option<Axis>)
    ensures r.None? <==> forall a :: !BothGiven(o, a)
    ensures r.Some? ==> BothGiven(o, r.value)
    ensures r.Some? ==> forall a :: Rank(a) < Rank(r.value) ==> !BothGiven(o, a)
  {
    if BothGiven(o, MetricAxis) then Some(MetricAxis)
    else if BothGiven(o, FieldAxis) then Some(FieldAxis)
    else if BothGiven(o, LevelAxis) then Some(LevelAxis)
    else if BothGiven(o, ThreshAxis) then Some(ThreshAxis)
    else None
  }

  // ------------------------------------------- thresholds of the database

  function NotInDb(vs: seq<string>, db: seq<string>): (r: set<string>)
    ensures forall th :: th in r <==> th in vs && th !in db
  {
    set th | th in vs && th !in db
  }

  /** set(option values).difference(valid_threshes_for_db), checked for
      --incl_only_threshes first and then for --excl_threshes. */
  function ThreshDbCheck(o: Options, db: seq<string>): (r: Option<Failure>)
    ensures r.None? <==> forall th :: th in o.threshes.inclOnly + o.threshes.excl ==> th in db
    ensures r.Some? ==> r.value.ThreshesNotInDb? && r.value.offenders != {}
    ensures r.Some? ==> (r.value.inclOnly <==> exists th :: th in o.threshes.inclOnly && th !in db)
    ensures r.Some? ==> forall th :: th in r.value.offenders <==>
              th in (if r.value.inclOnly then o.threshes.inclOnly else o.threshes.excl) && th !in db
  {
    var i := NotInDb(o.threshes.inclOnly, db);
    var e := NotInDb(o.threshes.excl, db);
    if i != {} then
      var th :| th in i;
      Some(ThreshesNotInDb(true, i))
    else if e != {} then
      var th :| th in e;
      Some(ThreshesNotInDb(false, e))
    else None
  }

  // ------------------------------------------ threshold-list validation

  /** What the validation loop finds wrong with one level's threshold list:
      vx_metric_needs_thresh[metric] raises KeyError for a metric it does
      not list; a metric that needs thresholds must have some, and one
      that does not must have none. */
  function LevelProblem(m: string, f: string, le: LevelEntry, needs: map<string, bool>): Option<Failure>
  {
    if m !in needs then Some(UnknownMetric(m))
    else if needs[m] && |le.threshes| == 0 then Some(MissingThreshes(m, f, le.level))
    else if !needs[m] && |le.threshes| > 0 then Some(UnexpectedThreshes(m, f, le.level))
    else None
  }

  /** Only metrics that need thresholds carry any. */
  predicate ThreshesOnlyWhereNeeded(t: Tree, needs: map<string, bool>)
  {
    forall e, fe, le :: e in t && fe in e.fields && le in fe.levels && |le.threshes| > 0
                        ==> NeedsThresh(needs, e.metric)
  }

  /** The state the validation loop lets through. */
  predicate ThreshListsValid(t: Tree, needs: map<string, bool>)
  {
    KnownMetrics(t, needs) && NoThreshlessLevels(t, needs) && ThreshesOnlyWhereNeeded(t, needs)
  }

  function LevelsCheck(m: string, f: string, ls: seq<LevelEntry>, needs: map<string, bool>)
    : (r: Option<Failure>)
    ensures r.None? <==> forall le :: le in ls ==> LevelProblem(m, f, le, needs).None?
    ensures r.Some? ==> exists le :: le in ls && LevelProblem(m, f, le, needs) == r
  {
    if |ls| == 0 then None
    else if LevelProblem(m, f, ls[0], needs).Some? then LevelProblem(m, f, ls[0], needs)
    else
      assert ls == [ls[0]] + ls[1..];
      LevelsCheck(m, f, ls[1..], needs)
  }

  function FieldsCheck(m: string, fs: seq<FieldEntry>, needs: map<string, bool>): (r: Option<Failure>)
    ensures r.None? <==>
              forall fe, le :: fe in fs && le in fe.levels ==> LevelProblem(m, fe.field, le, needs).None?
    ensures r.Some? ==>
              exists fe, le :: fe in fs && le in fe.levels && LevelProblem(m, fe.field, le, needs) == r
  {
    if |fs| == 0 then None
    else
      var here := LevelsCheck(m, fs[0].field, fs[0].levels, needs);
      assert fs == [fs[0]] + fs[1..];
      if here.Some? then here else FieldsCheck(m, fs[1..], needs)
  }

  function TreeCheck(t: Tree, needs: map<string, bool>): (r: Option<Failure>)
    ensures r.None? <==>
              forall e, fe, le :: e in t && fe in e.fields && le in fe.levels
                                  ==> LevelProblem(e.metric, fe.field, le, needs).None?
    ensures r.Some? ==>
              exists e, fe, le :: e in t && fe in e.fields && le in fe.levels
                                  && LevelProblem(e.metric, fe.field, le, needs) == r
  {
    if |t| == 0 then None
    else
      var here := FieldsCheck(t[0].metric, t[0].fields, needs);
      assert t == [t[0]] + t[1..];
      if here.Some? then here else TreeCheck(t[1..], needs)
  }

  /** The validation loop over the configuration: it lets a tree through
      exactly when every metric with a level is known, and each level
      carries thresholds exactly when its metric needs them; otherwise it
      reports a problem of some level. */
  function ThreshListCheck(t: Tree, needs: map<string, bool>): (r: Option<Failure>)
    ensures r.None? <==> ThreshListsValid(t, needs)
    ensures r.Some? ==>
              exists e, fe, le :: e in t && fe in e.fields && le in fe.levels
                                  && LevelProblem(e.metric, fe.field, le, needs) == r
  {
    var r := TreeCheck(t, needs);
    if r.None? then r
    else
      assert !ThreshListsValid(t, needs) by {
        var e, fe, le :| e in t && fe in e.fields && le in fe.levels
                         && LevelProblem(e.metric, fe.field, le, needs) == r;
      }
      r
  }

  // -------------------------------------------- values absent from the tree

  predicate MetricOccurs(t: Tree, v: string)
  {
    exists e :: e in t && e.metric == v
  }

  predicate FieldOccurs(t: Tree, v: string)
  {
    exists e, fe :: e in t && fe in e.fields && fe.field == v
  }

  predicate LevelOccurs(t: Tree, v: string)
  {
    exists e, fe, le :: e in t && fe in e.fields && le in fe.levels && le.level == v
  }

  predicate ThreshOccurs(t: Tree, v: string)
  {
    exists e, fe, le :: e in t && fe in e.fields && le in fe.levels && v in le.threshes
  }

  /** The script's count loops: a value occurs on an axis when it is a key
      at that depth (or, for thresholds, a member of a list) anywhere in
      the tree. */
  predicate Occurs(t: Tree, a: Axis, v: string)
  {
    match a
    case MetricAxis => MetricOccurs(t, v)
    case FieldAxis => FieldOccurs(t, v)
    case LevelAxis => LevelOccurs(t, v)
    case ThreshAxis => ThreshOccurs(t, v)
  }

  function Present(t: Tree, a: Axis): string -> bool
  {
    v => Occurs(t, a, v)
  }

  function Absent(t: Tree, a: Axis): string -> bool
  {
    v => !Occurs(t, a, v)
  }

  lemma DropAbsentStep(values: seq<string>, present: string -> bool, absent: string -> bool, i: int)
    requires 0 <= i < |values|
    requires absent(values[i]) == !present(values[i])
    ensures var v, done := values[i], Filter(values[..i], present);
            v in values[i..] &&
            (if present(v)
             then Filter(values[..i + 1], present) + values[i + 1..] == done + values[i..]
                  && Filter(values[..i + 1], absent) == Filter(values[..i], absent)
             else Filter(values[..i + 1], present) + values[i + 1..]
                    == RemoveFirst(done + values[i..], v)
                  && Filter(values[..i + 1], absent) == Filter(values[..i], absent) + [v])
  {
    var v, done := values[i], Filter(values[..i], present);
    var rest := values[i + 1..];
    assert values[i..] == [v] + rest;
    if present(v) {
      assert Filter(values[..i + 1], present) == done + [v] by { FilterPrefix(values, i, present); }
      assert Filter(values[..i + 1], absent) == Filter(values[..i], absent) by { FilterPrefix(values, i, absent); }
      assert done + [v] + rest == done + values[i..];
    } else {
      assert Filter(values[..i + 1], present) == done by { FilterPrefix(values, i, present); }
      assert Filter(values[..i + 1], absent) == Filter(values[..i], absent) + [v] by { FilterPrefix(values, i, absent); }
      assert RemoveFirst(done + values[i..], v) == done + rest by {
        assert v !in done;
        RemoveFirstAfter(done, v, rest);
        assert done + values[i..] == done + [v] + rest;
      }
    }
  }

  /** for v in values.copy(): if its count is 0, values.remove(v) and warn.
      The list keeps its present values in order; the warnings name the
      absent ones in order, one per occurrence.  `present` is the count
      loop's verdict, `absent` its negation. */
  method DropAbsent(values: seq<string>, present: string -> bool, absent: string -> bool)
    returns (kept: seq<string>, dropped: seq<string>)
    requires forall v :: absent(v) == !present(v)
    ensures kept == Filter(values, present)
    ensures dropped == Filter(values, absent)
  {
    kept := values;
    dropped := [];
    var i := 0;
    while i < |values|
      invariant 0 <= i <= |values|
      invariant kept == Filter(values[..i], present) + values[i..]
      invariant dropped == Filter(values[..i], absent)
    {
      kept, dropped := DropIfAbsent(values, present, absent, i, kept, dropped);
      i := i + 1;
    }
    assert values[..i] == values;
  }

  /** One turn of the loop: values[i] is removed from the list and
      warned about when it is absent. */
  method DropIfAbsent(values: seq<string>, present: string -> bool, absent: string -> bool, i: nat,
                      kept: seq<string>, dropped: seq<string>)
    returns (kept': seq<string>, dropped': seq<string>)
    requires i < |values| && absent(values[i]) == !present(values[i])
    requires kept == Filter(values[..i], present) + values[i..]
    requires dropped == Filter(values[..i], absent)
    ensures kept' == Filter(values[..i + 1], present) + values[i + 1..]
    ensures dropped' == Filter(values[..i + 1], absent)
  {
    var v := values[i];
    DropAbsentStep(values, present, absent, i);
    if !present(v) {
      kept' := RemoveFirst(kept, v);
      dropped' := dropped + [v];
    } else {
      kept', dropped' := kept, dropped;
    }
  }

  /** c holds the option lists of s that survive the clean-up on axis a. */
  predicate CleanedSelection(t: Tree, a: Axis, s: Selection, c: Selection)
  {
    c.inclOnly == Filter(s.inclOnly, Present(t, a)) && c.excl == Filter(s.excl, Present(t, a))
  }

  /** c holds, axis by axis, the option lists o would have after the clean-up. */
  predicate CleanedFrom(t: Tree, o: Options, c: Options)
  {
    forall a :: CleanedSelection(t, a, Sel(o, a), Sel(c, a))
  }

  function AbsentWarnings(a: Axis, inclOnly: bool, vs: seq<string>): (r: seq<Warning>)
    ensures |r| == |vs| && forall i :: 0 <= i < |vs| ==> r[i] == AbsentFromConfig(a, inclOnly, vs[i])
  {
    seq(|vs|, i requires 0 <= i < |vs| => AbsentFromConfig(a, inclOnly, vs[i]))
  }

  /** One axis of the clean-up: the include-only list, then the exclude list. */
  method CleanAxis(t: Tree, a: Axis, s: Selection) returns (c: Selection, warnings: seq<Warning>)
    ensures CleanedSelection(t, a, s, c)
    ensures AxisWarnings(t, a, s, warnings)
  {
    var incl, inclAbsent := DropAbsent(s.inclOnly, Present(t, a), Absent(t, a));
    var excl, exclAbsent := DropAbsent(s.excl, Present(t, a), Absent(t, a));
    c := Selection(incl, excl);
    warnings := AbsentWarnings(a, true, inclAbsent) + AbsentWarnings(a, false, exclAbsent);
    AbsentWarned(t, a, s);
  }

  /** One warning for each listed value the tree lacks, include-only
      values first, and no other warning. */
  lemma AbsentWarned(t: Tree, a: Axis, s: Selection)
    ensures AxisWarnings(t, a, s, AbsentWarnings(a, true, Filter(s.inclOnly, Absent(t, a)))
                                  + AbsentWarnings(a, false, Filter(s.excl, Absent(t, a))))
  {
    var inclAbsent := Filter(s.inclOnly, Absent(t, a));
    var exclAbsent := Filter(s.excl, Absent(t, a));
    var wi := AbsentWarnings(a, true, inclAbsent);
    var we := AbsentWarnings(a, false, exclAbsent);
    forall w: Warning | w in wi + we
      ensures w.AbsentFromConfig? && w.axis == a
              && w.value in (if w.inclOnly then s.inclOnly else s.excl) && Absent(t, a)(w.value)
    {
      if w in wi {
        var i :| 0 <= i < |inclAbsent| && w == wi[i];
        assert inclAbsent[i] in inclAbsent;
      } else {
        assert w in we;
        var i :| 0 <= i < |exclAbsent| && w == we[i];
        assert exclAbsent[i] in exclAbsent;
      }
    }
    forall w: Warning | w.AbsentFromConfig? && w.axis == a
               && w.value in (if w.inclOnly then s.inclOnly else s.excl) && Absent(t, a)(w.value)
      ensures w in wi + we
    {
      if w.inclOnly {
        var i := IndexOf(inclAbsent, w.value);
        assert wi[i] == w;
        assert (wi + we)[i] == w;
      } else {
        var i := IndexOf(exclAbsent, w.value);
        assert we[i] == w;
        assert (wi + we)[|wi| + i] == w;
      }
    }
  }

  ghost predicate AxisWarnings(t: Tree, a: Axis, s: Selection, ws: seq<Warning>)
  {
    forall w :: w in ws <==>
      w.AbsentFromConfig? && w.axis == a
      && w.value in (if w.inclOnly then s.inclOnly else s.excl) && Absent(t, a)(w.value)
  }

  lemma CombinedWarnings(t: Tree, o: Options, wm: seq<Warning>, wf: seq<Warning>,
                         wl: seq<Warning>, wt: seq<Warning>)
    requires AxisWarnings(t, MetricAxis, o.metrics, wm)
    requires AxisWarnings(t, FieldAxis, o.fields, wf)
    requires AxisWarnings(t, LevelAxis, o.levels, wl)
    requires AxisWarnings(t, ThreshAxis, o.threshes, wt)
    ensures forall w :: w in wm + wf + wl + wt <==>
              w.AbsentFromConfig?
              && w.value in (if w.inclOnly then Sel(o, w.axis).inclOnly else Sel(o, w.axis).excl)
              && Absent(t, w.axis)(w.value)
  {
    forall w: Warning
      ensures w in wm + wf + wl + wt <==>
                w.AbsentFromConfig?
                && w.value in (if w.inclOnly then Sel(o, w.axis).inclOnly else Sel(o, w.axis).excl)
                && Absent(t, w.axis)(w.value)
    {
      assert w in wm + wf + wl + wt <==> w in wm || w in wf || w in wl || w in wt;
    }
  }

  lemma CleanedByAxis(t: Tree, o: Options, c: Options)
    requires CleanedSelection(t, MetricAxis, o.metrics, c.metrics)
    requires CleanedSelection(t, FieldAxis, o.fields, c.fields)
    requires CleanedSelection(t, LevelAxis, o.levels, c.levels)
    requires CleanedSelection(t, ThreshAxis, o.threshes, c.threshes)
    ensures CleanedFrom(t, o, c)
  {
    forall a ensures CleanedSelection(t, a, Sel(o, a), Sel(c, a)) {
      match a
      case MetricAxis =>
      case FieldAxis =>
      case LevelAxis =>
      case ThreshAxis =>
    }
  }

  /** The four clean-up loops, metrics to thresholds, all against the
      configuration as read. */
  method CleanOptions(t: Tree, o: Options) returns (c: Options, warnings: seq<Warning>)
    ensures CleanedFrom(t, o, c)
    ensures forall w :: w in warnings <==>
              w.AbsentFromConfig?
              && w.value in (if w.inclOnly then Sel(o, w.axis).inclOnly else Sel(o, w.axis).excl)
              && Absent(t, w.axis)(w.value)
  {
    var m, wm := CleanAxis(t, MetricAxis, o.metrics);
    var f, wf := CleanAxis(t, FieldAxis, o.fields);
    var l, wl := CleanAxis(t, LevelAxis, o.levels);
    var th, wt := CleanAxis(t, ThreshAxis, o.threshes);
    c := Options(m, f, l, th);
    warnings := wm + wf + wl + wt;
    CleanedByAxis(t, o, c);
    CombinedWarnings(t, o, wm, wf, wl, wt);
  }

  /** The check after the clean-up: the first axis whose include-only list
      was given but lost every value is an error. */
  function FirstEmptiedInclOnly(o: Options, c: Options): (r: Option<Axis>)
    ensures r.None? <==> forall a :: |Sel(o, a).inclOnly| > 0 ==> |Sel(c, a).inclOnly| > 0
    ensures r.Some? ==> |Sel(o, r.value).inclOnly| > 0 && |Sel(c, r.value).inclOnly| == 0
    ensures r.Some? ==> forall a :: Rank(a) < Rank(r.value) ==>
                          !(|Sel(o, a).inclOnly| > 0 && |Sel(c, a).inclOnly| == 0)
  {
    if |o.metrics.inclOnly| > 0 && |c.metrics.inclOnly| == 0 then Some(MetricAxis)
    else if |o.fields.inclOnly| > 0 && |c.fields.inclOnly| == 0 then Some(FieldAxis)
    else if |o.levels.inclOnly| > 0 && |c.levels.inclOnly| == 0 then Some(LevelAxis)
    else if |o.threshes.inclOnly| > 0 && |c.threshes.inclOnly| == 0 then Some(ThreshAxis)
    else None
  }
}
