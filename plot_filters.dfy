/**
 * The in-place reductions make_multi_mv_vx_plots applies to the plot
 * configuration tree: popping the metric, field and level keys an
 * --incl_only_... or --excl_... option rules out, replacing each threshold
 * list by list(set(...) & keep) or list(set(...) - discard), and popping
 * whatever is left empty, bottom-up.  Each method runs the loops the script
 * runs and is proved equal to (or, for the set-based threshold lists,
 * related to) a function of PlotTree.
 */
module PlotFilters {

  import opened PySeq
  import opened PlotTree

  /** The two mutually exclusive options of one axis, as parsed. */
  datatype Selection = Selection(inclOnly: seq<string>, excl: seq<string>)

  /** The members of a list, as set(...) builds them. */
  function Keys(s: seq<string>): (r: set<string>)
    ensures forall k :: k in r <==> k in s
  {
    set k | k in s
  }

  lemma KeysOfNothing()
    ensures Keys([]) == {}
  {
  }

  /** The keys of one more item. */
  lemma KeysTakeOneMore(keys: seq<string>, i: nat)
    requires i < |keys|
    ensures Keys(keys[..i + 1]) == Keys(keys[..i]) + {keys[i]}
  {
    assert keys[..i + 1] == keys[..i] + [keys[i]];
  }

  /** The keys an axis pass pops.  The include-only list pops every key of
      the axis's list of valid values that it does not name; the exclude
      list pops the keys it names.  Each applies only when the option was
      given and still has values after the clean-up of absent values. */
  function Dropped(orig: Selection, cur: Selection, universe: seq<string>): set<string>
  {
    (if |orig.inclOnly| > 0 && |cur.inclOnly| > 0 then set k | k in universe && k !in cur.inclOnly else {})
    + (if |orig.excl| > 0 && |cur.excl| > 0 then Keys(cur.excl) else {})
  }

  // ----------------------------------------------- composing removals

  lemma {:induction false} WithoutMetricsTwice(t: Tree, a: set<string>, b: set<string>)
    ensures WithoutMetrics(WithoutMetrics(t, a), b) == WithoutMetrics(t, a + b)
  {
    if |t| > 0 {
      var x, rest := t[0], t[1..];
      assert t == [x] + rest;
      WithoutMetricsTwice(rest, a, b);
      assert WithoutMetrics(t, a + b) == (if x.metric in a + b then [] else [x]) + WithoutMetrics(rest, a + b);
      assert WithoutMetrics(t, a) == (if x.metric in a then [] else [x]) + WithoutMetrics(rest, a);
      if x.metric !in a {
        var w := WithoutMetrics(rest, a);
        assert ([x] + w)[1..] == w;
        assert WithoutMetrics([x] + w, b) == (if x.metric in b then [] else [x]) + WithoutMetrics(w, b);
      } else {
        assert WithoutMetrics(t, a) == WithoutMetrics(rest, a);
      }
    }
  }

  lemma {:induction false} WithoutFieldsTwice(fs: seq<FieldEntry>, a: set<string>, b: set<string>)
    ensures WithoutFields(WithoutFields(fs, a), b) == WithoutFields(fs, a + b)
  {
    if |fs| > 0 {
      var x, rest := fs[0], fs[1..];
      assert fs == [x] + rest;
      WithoutFieldsTwice(rest, a, b);
      assert WithoutFields(fs, a + b) == (if x.field in a + b then [] else [x]) + WithoutFields(rest, a + b);
      assert WithoutFields(fs, a) == (if x.field in a then [] else [x]) + WithoutFields(rest, a);
      if x.field !in a {
        var w := WithoutFields(rest, a);
        assert ([x] + w)[1..] == w;
        assert WithoutFields([x] + w, b) == (if x.field in b then [] else [x]) + WithoutFields(w, b);
      } else {
        assert WithoutFields(fs, a) == WithoutFields(rest, a);
      }
    }
  }

  lemma {:induction false} WithoutLevelsTwice(ls: seq<LevelEntry>, a: set<string>, b: set<string>)
    ensures WithoutLevels(WithoutLevels(ls, a), b) == WithoutLevels(ls, a + b)
  {
    if |ls| > 0 {
      var x, rest := ls[0], ls[1..];
      assert ls == [x] + rest;
      WithoutLevelsTwice(rest, a, b);
      assert WithoutLevels(ls, a + b) == (if x.level in a + b then [] else [x]) + WithoutLevels(rest, a + b);
      assert WithoutLevels(ls, a) == (if x.level in a then [] else [x]) + WithoutLevels(rest, a);
      if x.level !in a {
        var w := WithoutLevels(rest, a);
        assert ([x] + w)[1..] == w;
        assert WithoutLevels([x] + w, b) == (if x.level in b then [] else [x]) + WithoutLevels(w, b);
      } else {
        assert WithoutLevels(ls, a) == WithoutLevels(rest, a);
      }
    }
  }

  lemma {:induction false} WithoutMetricsNone(t: Tree)
    ensures WithoutMetrics(t, {}) == t
  {
    if |t| > 0 {
      WithoutMetricsNone(t[1..]);
      assert [t[0]] + t[1..] == t;
    }
  }

  lemma {:induction false} WithoutFieldsNone(fs: seq<FieldEntry>)
    ensures WithoutFields(fs, {}) == fs
  {
    if |fs| > 0 {
      WithoutFieldsNone(fs[1..]);
      assert [fs[0]] + fs[1..] == fs;
    }
  }

  lemma {:induction false} WithoutLevelsNone(ls: seq<LevelEntry>)
    ensures WithoutLevels(ls, {}) == ls
  {
    if |ls| > 0 {
      WithoutLevelsNone(ls[1..]);
      assert [ls[0]] + ls[1..] == ls;
    }
  }

  lemma FieldsWithoutTwice(t: Tree, a: set<string>, b: set<string>)
    ensures FieldsWithout(FieldsWithout(t, a), b) == FieldsWithout(t, a + b)
  {
    forall i | 0 <= i < |t| {
      WithoutFieldsTwice(t[i].fields, a, b);
    }
  }

  lemma FieldsWithoutNone(t: Tree)
    ensures FieldsWithout(t, {}) == t
  {
    forall i | 0 <= i < |t| {
      WithoutFieldsNone(t[i].fields);
    }
  }

  lemma LevelsWithoutTwice(t: Tree, a: set<string>, b: set<string>)
    ensures LevelsWithout(LevelsWithout(t, a), b) == LevelsWithout(t, a + b)
  {
    forall i, j | 0 <= i < |t| && 0 <= j < |t[i].fields| {
      WithoutLevelsTwice(t[i].fields[j].levels, a, b);
    }
    forall i | 0 <= i < |t|
      ensures LevelsWithoutIn(LevelsWithoutIn(t[i].fields, a), b) == LevelsWithoutIn(t[i].fields, a + b)
    {
    }
  }

  lemma LevelsWithoutNone(t: Tree)
    ensures LevelsWithout(t, {}) == t
  {
    forall i, j | 0 <= i < |t| && 0 <= j < |t[i].fields| {
      WithoutLevelsNone(t[i].fields[j].levels);
    }
    forall i | 0 <= i < |t| ensures LevelsWithoutIn(t[i].fields, {}) == t[i].fields {
    }
  }

  lemma KeysOfFilter(universe: seq<string>, incl: seq<string>)
    ensures Keys(Filter(universe, k => k !in incl)) == (set k | k in universe && k !in incl)
  {
  }

  // ------------------------------------------------------- pop loops

  /** [d.pop(k, None) for k in keys] on the top-level dict. */
  method PopMetrics(t: Tree, keys: seq<string>) returns (r: Tree)
    ensures r == WithoutMetrics(t, Keys(keys))
  {
    r := t;
    ghost var done: set<string> := {};
    WithoutMetricsNone(t);
    assert keys[..0] == [];
    KeysOfNothing();
    for i := 0 to |keys|
      invariant done == Keys(keys[..i])
      invariant r == WithoutMetrics(t, done)
    {
      WithoutMetricsTwice(t, done, {keys[i]});
      KeysTakeOneMore(keys, i);
      r := WithoutMetrics(r, {keys[i]});
      done := done + {keys[i]};
    }
    assert keys[..|keys|] == keys;
  }

  /** [d[metric].pop(k, None) for k in keys] on one metric's dict. */
  method PopFields(fs: seq<FieldEntry>, keys: seq<string>) returns (r: seq<FieldEntry>)
    ensures r == WithoutFields(fs, Keys(keys))
  {
    r := fs;
    ghost var done: set<string> := {};
    WithoutFieldsNone(fs);
    assert keys[..0] == [];
    KeysOfNothing();
    for i := 0 to |keys|
      invariant done == Keys(keys[..i])
      invariant r == WithoutFields(fs, done)
    {
      WithoutFieldsTwice(fs, done, {keys[i]});
      KeysTakeOneMore(keys, i);
      r := WithoutFields(r, {keys[i]});
      done := done + {keys[i]};
    }
    assert keys[..|keys|] == keys;
  }

  /** [d[metric][field].pop(k, None) for k in keys] on one field's dict. */
  method PopLevels(ls: seq<LevelEntry>, keys: seq<string>) returns (r: seq<LevelEntry>)
    ensures r == WithoutLevels(ls, Keys(keys))
  {
    r := ls;
    ghost var done: set<string> := {};
    WithoutLevelsNone(ls);
    assert keys[..0] == [];
    KeysOfNothing();
    for i := 0 to |keys|
      invariant done == Keys(keys[..i])
      invariant r == WithoutLevels(ls, done)
    {
      WithoutLevelsTwice(ls, done, {keys[i]});
      KeysTakeOneMore(keys, i);
      r := WithoutLevels(r, {keys[i]});
      done := done + {keys[i]};
    }
    assert keys[..|keys|] == keys;
  }

  /** for metric in d.copy().keys(): pop the keys from d[metric]. */
  method PopFieldsEverywhere(t: Tree, keys: seq<string>) returns (r: Tree)
    ensures r == FieldsWithout(t, Keys(keys))
  {
    r := t;
    var i := 0;
    while i < |t|
      invariant 0 <= i <= |t| && |r| == |t|
      invariant forall n :: 0 <= n < i ==> r[n] == FieldsWithout(t, Keys(keys))[n]
      invariant forall n :: i <= n < |t| ==> r[n] == t[n]
    {
      var fs := PopFields(r[i].fields, keys);
      r := r[i := MetricEntry(r[i].metric, fs)];
      i := i + 1;
    }
  }

  /** for field in d[metric].copy(): pop the keys from d[metric][field]. */
  method PopLevelsIn(fs: seq<FieldEntry>, keys: seq<string>) returns (r: seq<FieldEntry>)
    ensures r == LevelsWithoutIn(fs, Keys(keys))
  {
    r := fs;
    var j := 0;
    while j < |fs|
      invariant 0 <= j <= |fs| && |r| == |fs|
      invariant forall n :: 0 <= n < j ==> r[n] == LevelsWithoutIn(fs, Keys(keys))[n]
      invariant forall n :: j <= n < |fs| ==> r[n] == fs[n]
    {
      var ls := PopLevels(r[j].levels, keys);
      r := r[j := FieldEntry(r[j].field, ls)];
      j := j + 1;
    }
  }

  method PopLevelsEverywhere(t: Tree, keys: seq<string>) returns (r: Tree)
    ensures r == LevelsWithout(t, Keys(keys))
  {
    r := t;
    var i := 0;
    while i < |t|
      invariant 0 <= i <= |t| && |r| == |t|
      invariant forall n :: 0 <= n < i ==> r[n] == LevelsWithout(t, Keys(keys))[n]
      invariant forall n :: i <= n < |t| ==> r[n] == t[n]
    {
      var fs := PopLevelsIn(r[i].fields, keys);
      r := r[i := MetricEntry(r[i].metric, fs)];
      i := i + 1;
    }
  }

  // ------------------------------------------------------ axis passes

  /** The metric pass: the include-only pops, then the exclude pops. */
  method MetricPass(t: Tree, orig: Selection, cur: Selection, universe: seq<string>)
    returns (r: Tree)
    ensures r == WithoutMetrics(t, Dropped(orig, cur, universe))
  {
    r := t;
    var a: set<string> := {};
    var b: set<string> := {};
    WithoutMetricsNone(t);
    if |orig.inclOnly| > 0 && |cur.inclOnly| > 0 {
      KeysOfFilter(universe, cur.inclOnly);
      r := PopMetrics(r, Filter(universe, k => k !in cur.inclOnly));
      a := set k | k in universe && k !in cur.inclOnly;
    }
    if |orig.excl| > 0 && |cur.excl| > 0 {
      r := PopMetrics(r, cur.excl);
      b := Keys(cur.excl);
    }
    WithoutMetricsTwice(t, a, b);
    WithoutMetricsNone(WithoutMetrics(t, a));
  }

  /** The field pass, under every metric. */
  method FieldPass(t: Tree, orig: Selection, cur: Selection, universe: seq<string>)
    returns (r: Tree)
    ensures r == FieldsWithout(t, Dropped(orig, cur, universe))
  {
    r := t;
    var a: set<string> := {};
    var b: set<string> := {};
    FieldsWithoutNone(t);
    if |orig.inclOnly| > 0 && |cur.inclOnly| > 0 {
      KeysOfFilter(universe, cur.inclOnly);
      r := PopFieldsEverywhere(r, Filter(universe, k => k !in cur.inclOnly));
      a := set k | k in universe && k !in cur.inclOnly;
    }
    if |orig.excl| > 0 && |cur.excl| > 0 {
      r := PopFieldsEverywhere(r, cur.excl);
      b := Keys(cur.excl);
    }
    FieldsWithoutTwice(t, a, b);
    FieldsWithoutNone(FieldsWithout(t, a));
  }

  /** The level pass, under every metric and field. */
  method LevelPass(t: Tree, orig: Selection, cur: Selection, universe: seq<string>)
    returns (r: Tree)
    ensures r == LevelsWithout(t, Dropped(orig, cur, universe))
  {
    r := t;
    var a: set<string> := {};
    var b: set<string> := {};
    LevelsWithoutNone(t);
    if |orig.inclOnly| > 0 && |cur.inclOnly| > 0 {
      KeysOfFilter(universe, cur.inclOnly);
      r := PopLevelsEverywhere(r, Filter(universe, k => k !in cur.inclOnly));
      a := set k | k in universe && k !in cur.inclOnly;
    }
    if |orig.excl| > 0 && |cur.excl| > 0 {
      r := PopLevelsEverywhere(r, cur.excl);
      b := Keys(cur.excl);
    }
    LevelsWithoutTwice(t, a, b);
    LevelsWithoutNone(LevelsWithout(t, a));
  }

  // ------------------------------------------------- threshold pass

  /** The members of one threshold list that the selection keeps, as the
      set intersection or difference builds them. */
  function KeptSet(threshes: seq<string>, sel: ThreshSelection): (r: set<string>)
    ensures forall th :: th in r <==> th in threshes && Kept(sel, th)
  {
    set th | th in threshes && Kept(sel, th)
  }

  /** for level, threshes_list in ...: replace the list by its filtered set. */
  method FilterLevelLists(ls: seq<LevelEntry>, sel: ThreshSelection) returns (r: seq<LevelEntry>)
    ensures |r| == |ls|
    ensures forall k :: 0 <= k < |ls| ==>
              r[k].level == ls[k].level && FilteredList(ls[k].threshes, r[k].threshes, sel)
  {
    r := ls;
    var k := 0;
    while k < |ls|
      invariant 0 <= k <= |ls| && |r| == |ls|
      invariant forall n :: 0 <= n < k ==>
                  r[n].level == ls[n].level && FilteredList(ls[n].threshes, r[n].threshes, sel)
      invariant forall n :: k <= n < |ls| ==> r[n] == ls[n]
    {
      var filtered := SetToList(KeptSet(ls[k].threshes, sel));
      r := r[k := LevelEntry(ls[k].level, filtered)];
      k := k + 1;
    }
  }

  method FilterFieldLists(fs: seq<FieldEntry>, sel: ThreshSelection) returns (r: seq<FieldEntry>)
    ensures |r| == |fs|
    ensures forall j :: 0 <= j < |fs| ==>
              r[j].field == fs[j].field && |r[j].levels| == |fs[j].levels| &&
              forall k :: 0 <= k < |fs[j].levels| ==>
                r[j].levels[k].level == fs[j].levels[k].level &&
                FilteredList(fs[j].levels[k].threshes, r[j].levels[k].threshes, sel)
  {
    r := fs;
    var j := 0;
    while j < |fs|
      invariant 0 <= j <= |fs| && |r| == |fs|
      invariant forall n :: 0 <= n < j ==>
                  r[n].field == fs[n].field && |r[n].levels| == |fs[n].levels| &&
                  forall k :: 0 <= k < |fs[n].levels| ==>
                    r[n].levels[k].level == fs[n].levels[k].level &&
                    FilteredList(fs[n].levels[k].threshes, r[n].levels[k].threshes, sel)
      invariant forall n :: j <= n < |fs| ==> r[n] == fs[n]
    {
      var ls := FilterLevelLists(fs[j].levels, sel);
      r := r[j := FieldEntry(fs[j].field, ls)];
      j := j + 1;
    }
  }

  /** One of the two threshold filters over the whole tree. */
  method FilterTreeLists(t: Tree, sel: ThreshSelection) returns (r: Tree)
    ensures ThreshFiltered(t, r, sel)
  {
    r := t;
    var i := 0;
    while i < |t|
      invariant 0 <= i <= |t| && |r| == |t|
      invariant forall n :: 0 <= n < i ==>
                  r[n].metric == t[n].metric && |r[n].fields| == |t[n].fields| &&
                  forall j :: 0 <= j < |t[n].fields| ==>
                    r[n].fields[j].field == t[n].fields[j].field &&
                    |r[n].fields[j].levels| == |t[n].fields[j].levels| &&
                    forall k :: 0 <= k < |t[n].fields[j].levels| ==>
                      r[n].fields[j].levels[k].level == t[n].fields[j].levels[k].level &&
                      FilteredList(t[n].fields[j].levels[k].threshes, r[n].fields[j].levels[k].threshes, sel)
      invariant forall n :: i <= n < |t| ==> r[n] == t[n]
    {
      var fs := FilterFieldLists(t[i].fields, sel);
      r := r[i := MetricEntry(t[i].metric, fs)];
      i := i + 1;
    }
  }

  /** Whether the --incl_only_threshes filter runs. */
  predicate InclActive(orig: Selection, cur: Selection)
  {
    |orig.inclOnly| > 0 && |cur.inclOnly| > 0
  }

  /** Whether the --excl_threshes filter runs. */
  predicate ExclActive(orig: Selection, cur: Selection)
  {
    |orig.excl| > 0 && |cur.excl| > 0
  }

  /** The threshold pass.  The two options never both hold values here:
      main refuses the pair before the reducer runs. */
  method ThreshPass(t: Tree, orig: Selection, cur: Selection) returns (r: Tree)
    requires !(InclActive(orig, cur) && ExclActive(orig, cur))
    ensures InclActive(orig, cur) ==> ThreshFiltered(t, r, KeepOnly(Keys(cur.inclOnly)))
    ensures ExclActive(orig, cur) ==> ThreshFiltered(t, r, Discard(Keys(cur.excl)))
    ensures !InclActive(orig, cur) && !ExclActive(orig, cur) ==> r == t
  {
    r := t;
    if InclActive(orig, cur) {
      r := FilterTreeLists(r, KeepOnly(Keys(cur.inclOnly)));
    }
    if ExclActive(orig, cur) {
      r := FilterTreeLists(r, Discard(Keys(cur.excl)));
    }
  }

  // ------------------------------------------------------ prune loops

  lemma {:induction false} DropEmptyMetricsSnoc(a: Tree, x: MetricEntry)
    ensures DropEmptyMetrics(a + [x]) == DropEmptyMetrics(a) + (if |x.fields| == 0 then [] else [x])
  {
    var t := if |x.fields| == 0 then [] else [x];
    if |a| > 0 {
      var h := if |a[0].fields| == 0 then [] else [a[0]];
      assert (a + [x])[0] == a[0] && (a + [x])[1..] == a[1..] + [x];
      DropEmptyMetricsSnoc(a[1..], x);
      calc {
        DropEmptyMetrics(a + [x]);
        h + DropEmptyMetrics(a[1..] + [x]);
        h + (DropEmptyMetrics(a[1..]) + t);
        (h + DropEmptyMetrics(a[1..])) + t;
        DropEmptyMetrics(a) + t;
      }
    } else {
      assert a + [x] == [x] && a == [];
    }
  }

  lemma {:induction false} DropEmptyFieldsSnoc(a: seq<FieldEntry>, x: FieldEntry)
    ensures DropEmptyFields(a + [x]) == DropEmptyFields(a) + (if |x.levels| == 0 then [] else [x])
  {
    var t := if |x.levels| == 0 then [] else [x];
    if |a| > 0 {
      var h := if |a[0].levels| == 0 then [] else [a[0]];
      assert (a + [x])[0] == a[0] && (a + [x])[1..] == a[1..] + [x];
      DropEmptyFieldsSnoc(a[1..], x);
      calc {
        DropEmptyFields(a + [x]);
        h + DropEmptyFields(a[1..] + [x]);
        h + (DropEmptyFields(a[1..]) + t);
        (h + DropEmptyFields(a[1..])) + t;
        DropEmptyFields(a) + t;
      }
    } else {
      assert a + [x] == [x] && a == [];
    }
  }

  lemma {:induction false} DropThreshlessLevelsSnoc(a: seq<LevelEntry>, x: LevelEntry, nt: bool)
    ensures DropThreshlessLevels(a + [x], nt)
            == DropThreshlessLevels(a, nt) + (if nt && |x.threshes| == 0 then [] else [x])
  {
    if |a| > 0 {
      assert (a + [x])[1..] == a[1..] + [x];
      DropThreshlessLevelsSnoc(a[1..], x, nt);
    }
  }

  /** The metric's entry after its empty fields are popped. */
  function FieldsPruned(x: MetricEntry): MetricEntry
  {
    MetricEntry(x.metric, DropEmptyFields(x.fields))
  }

  lemma PruneLevelStageSnoc(a: Tree, x: MetricEntry)
    ensures PruneLevelStage(a + [x])
            == PruneLevelStage(a) + (if |FieldsPruned(x).fields| == 0 then [] else [FieldsPruned(x)])
  {
    assert EmptyFieldsDropped(a + [x]) == EmptyFieldsDropped(a) + [FieldsPruned(x)];
    DropEmptyMetricsSnoc(EmptyFieldsDropped(a), FieldsPruned(x));
  }

  /** The field-stage clean-up: metrics whose field dict became empty are
      popped. */
  method PopEmptyMetrics(t: Tree) returns (r: Tree)
    ensures r == DropEmptyMetrics(t)
  {
    r := [];
    var i := 0;
    while i < |t|
      invariant 0 <= i <= |t|
      invariant r == DropEmptyMetrics(t[..i])
    {
      assert t[..i + 1] == t[..i] + [t[i]];
      DropEmptyMetricsSnoc(t[..i], t[i]);
      if |t[i].fields| > 0 {
        r := r + [t[i]];
      }
      i := i + 1;
    }
    assert t[..i] == t;
  }

  /** Pops the fields of one metric whose level dict became empty. */
  method PopEmptyFields(fs: seq<FieldEntry>) returns (r: seq<FieldEntry>)
    ensures r == DropEmptyFields(fs)
  {
    r := [];
    var j := 0;
    while j < |fs|
      invariant 0 <= j <= |fs|
      invariant r == DropEmptyFields(fs[..j])
    {
      assert fs[..j + 1] == fs[..j] + [fs[j]];
      DropEmptyFieldsSnoc(fs[..j], fs[j]);
      if |fs[j].levels| > 0 {
        r := r + [fs[j]];
      }
      j := j + 1;
    }
    assert fs[..j] == fs;
  }

  /** The level-stage clean-up: for each metric, its empty fields are
      popped, then the metric itself if nothing is left under it. */
  method PruneAfterLevels(t: Tree) returns (r: Tree)
    ensures r == PruneLevelStage(t)
  {
    r := [];
    var i := 0;
    while i < |t|
      invariant 0 <= i <= |t|
      invariant r == PruneLevelStage(t[..i])
    {
      assert t[..i + 1] == t[..i] + [t[i]];
      PruneLevelStageSnoc(t[..i], t[i]);
      var fs := PopEmptyFields(t[i].fields);
      if |fs| > 0 {
        r := r + [MetricEntry(t[i].metric, fs)];
      }
      i := i + 1;
    }
    assert t[..i] == t;
  }

  /** Every metric with a level below it has an entry in
      vx_metric_needs_thresh. */
  predicate KnownMetrics(t: Tree, needs: map<string, bool>)
  {
    forall e, fe, le :: e in t && fe in e.fields && le in fe.levels ==> e.metric in needs
  }

  lemma KnownMetricAt(t: Tree, needs: map<string, bool>, i: int)
    requires KnownMetrics(t, needs) && 0 <= i < |t|
    ensures forall fe :: fe in t[i].fields && |fe.levels| > 0 ==> t[i].metric in needs
  {
    forall fe | fe in t[i].fields && |fe.levels| > 0 ensures t[i].metric in needs {
      assert t[i] in t && fe.levels[0] in fe.levels;
    }
  }

  /** Pops the levels of one field whose threshold list is empty when the
      metric needs thresholds; vx_metric_needs_thresh is consulted once per
      level, so the lookup is made only where a level exists. */
  method PopThreshlessLevels(ls: seq<LevelEntry>, metric: string, needs: map<string, bool>)
    returns (r: seq<LevelEntry>)
    requires |ls| > 0 ==> metric in needs
    ensures r == DropThreshlessLevels(ls, NeedsThresh(needs, metric))
  {
    r := [];
    var k := 0;
    while k < |ls|
      invariant 0 <= k <= |ls|
      invariant r == DropThreshlessLevels(ls[..k], NeedsThresh(needs, metric))
    {
      assert ls[..k + 1] == ls[..k] + [ls[k]];
      DropThreshlessLevelsSnoc(ls[..k], ls[k], NeedsThresh(needs, metric));
      if !(needs[metric] && |ls[k].threshes| == 0) {
        r := r + [ls[k]];
      }
      k := k + 1;
    }
    assert ls[..k] == ls;
  }

  lemma ThreshlessFieldsSnoc(a: seq<FieldEntry>, y: FieldEntry, nt: bool)
    ensures DropEmptyFields(ThreshlessDroppedIn(a + [y], nt))
            == DropEmptyFields(ThreshlessDroppedIn(a, nt))
               + (if |DropThreshlessLevels(y.levels, nt)| == 0 then []
                  else [FieldEntry(y.field, DropThreshlessLevels(y.levels, nt))])
  {
    var z := FieldEntry(y.field, DropThreshlessLevels(y.levels, nt));
    assert ThreshlessDroppedIn(a + [y], nt) == ThreshlessDroppedIn(a, nt) + [z];
    DropEmptyFieldsSnoc(ThreshlessDroppedIn(a, nt), z);
  }

  lemma PruneThreshStageSnoc(a: Tree, x: MetricEntry, needs: map<string, bool>)
    ensures PruneThreshStage(a + [x], needs)
            == PruneThreshStage(a, needs)
               + (var fs := DropEmptyFields(ThreshlessDroppedIn(x.fields, NeedsThresh(needs, x.metric)));
                  if |fs| == 0 then [] else [MetricEntry(x.metric, fs)])
  {
    var y := MetricEntry(x.metric, ThreshlessDroppedIn(x.fields, NeedsThresh(needs, x.metric)));
    calc {
      PruneThreshStage(a + [x], needs);
      PruneLevelStage(ThreshlessDropped(a + [x], needs));
      { assert ThreshlessDropped(a + [x], needs) == ThreshlessDropped(a, needs) + [y]; }
      PruneLevelStage(ThreshlessDropped(a, needs) + [y]);
      { PruneLevelStageSnoc(ThreshlessDropped(a, needs), y); }
      PruneLevelStage(ThreshlessDropped(a, needs)) + (if |FieldsPruned(y).fields| == 0 then [] else [FieldsPruned(y)]);
    }
  }

  /** Pops threshold-less levels from one metric's fields, then the fields
      left empty. */
  method PruneFieldsAfterThreshes(fs: seq<FieldEntry>, metric: string, needs: map<string, bool>)
    returns (r: seq<FieldEntry>)
    requires forall fe :: fe in fs && |fe.levels| > 0 ==> metric in needs
    ensures r == DropEmptyFields(ThreshlessDroppedIn(fs, NeedsThresh(needs, metric)))
  {
    r := [];
    var j := 0;
    while j < |fs|
      invariant 0 <= j <= |fs|
      invariant r == DropEmptyFields(ThreshlessDroppedIn(fs[..j], NeedsThresh(needs, metric)))
    {
      assert fs[..j + 1] == fs[..j] + [fs[j]];
      ThreshlessFieldsSnoc(fs[..j], fs[j], NeedsThresh(needs, metric));
      var ls := PopThreshlessLevels(fs[j].levels, metric, needs);
      if |ls| > 0 {
        r := r + [FieldEntry(fs[j].field, ls)];
      }
      j := j + 1;
    }
    assert fs[..j] == fs;
  }

  /** One metric of the threshold-stage clean-up. */
  lemma PruneStep(t: Tree, needs: map<string, bool>, i: nat, r: Tree, fs: seq<FieldEntry>)
    requires i < |t| && r == PruneThreshStage(t[..i], needs)
    requires fs == DropEmptyFields(ThreshlessDroppedIn(t[i].fields, NeedsThresh(needs, t[i].metric)))
    ensures PruneThreshStage(t[..i + 1], needs)
            == r + (if |fs| == 0 then [] else [MetricEntry(t[i].metric, fs)])
  {
    assert t[..i + 1] == t[..i] + [t[i]];
    PruneThreshStageSnoc(t[..i], t[i], needs);
  }

  /** The threshold-stage clean-up: threshold-less levels of metrics that
      need thresholds, then empty fields, then empty metrics, metric by
      metric. */
  method PruneAfterThreshes(t: Tree, needs: map<string, bool>) returns (r: Tree)
    requires KnownMetrics(t, needs)
    ensures r == PruneThreshStage(t, needs)
  {
    r := [];
    var i := 0;
    while i < |t|
      invariant 0 <= i <= |t|
      invariant r == PruneThreshStage(t[..i], needs)
    {
      KnownMetricAt(t, needs, i);
      var fs := PruneFieldsAfterThreshes(t[i].fields, t[i].metric, needs);
      PruneStep(t, needs, i, r, fs);
      if |fs| > 0 {
        r := r + [MetricEntry(t[i].metric, fs)];
      }
      i := i + 1;
    }
    assert t[..i] == t;
  }
}
