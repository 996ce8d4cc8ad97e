/**
 * The plot configuration tree of the multi-plot driver: an insertion-ordered
 * mapping metric -> field -> level -> list of thresholds, read from the
 * "metrics_fields_levels_threshes" entry of the plot configuration file.
 * Python dicts are modelled as sequences of entries in insertion order;
 * removing a key keeps the order of the remaining ones.
 */
module PlotTree {

  import opened PySeq

  datatype LevelEntry = LevelEntry(level: string, threshes: seq<string>)
  datatype FieldEntry = FieldEntry(field: string, levels: seq<LevelEntry>)
  datatype MetricEntry = MetricEntry(metric: string, fields: seq<FieldEntry>)
  type Tree = seq<MetricEntry>

  /** A key path into the tree, down to a metric, a field, a level or one
      threshold of a level's list. */
  datatype Path =
    | MetricPath(metric: string)
    | FieldPath(metric: string, field: string)
    | LevelPath(metric: string, field: string, level: string)
    | ThreshPath(metric: string, field: string, level: string, thresh: string)

  predicate HasMetric(t: Tree, m: string)
  {
    exists e :: e in t && e.metric == m
  }

  predicate HasField(t: Tree, m: string, f: string)
  {
    exists e, fe :: e in t && fe in e.fields && e.metric == m && fe.field == f
  }

  predicate HasLevel(t: Tree, m: string, f: string, l: string)
  {
    exists e, fe, le :: e in t && fe in e.fields && le in fe.levels
                        && e.metric == m && fe.field == f && le.level == l
  }

  predicate HasThresh(t: Tree, m: string, f: string, l: string, th: string)
  {
    exists e, fe, le :: e in t && fe in e.fields && le in fe.levels
                        && e.metric == m && fe.field == f && le.level == l && th in le.threshes
  }

  /** The tree holds path p. */
  predicate Has(t: Tree, p: Path)
  {
    match p
    case MetricPath(m) => HasMetric(t, m)
    case FieldPath(m, f) => HasField(t, m, f)
    case LevelPath(m, f, l) => HasLevel(t, m, f, l)
    case ThreshPath(m, f, l, th) => HasThresh(t, m, f, l, th)
  }

  // --------------------------------------------------- key removal

  /** Every metric whose key is in `drop` popped from the top-level dict. */
  function WithoutMetrics(t: Tree, drop: set<string>): (r: Tree)
    ensures forall e :: e in r <==> e in t && e.metric !in drop
  {
    if |t| == 0 then []
    else (if t[0].metric in drop then [] else [t[0]]) + WithoutMetrics(t[1..], drop)
  }

  /** Every field whose key is in `drop` popped from one metric's dict. */
  function WithoutFields(fs: seq<FieldEntry>, drop: set<string>): (r: seq<FieldEntry>)
    ensures forall fe :: fe in r <==> fe in fs && fe.field !in drop
  {
    if |fs| == 0 then []
    else (if fs[0].field in drop then [] else [fs[0]]) + WithoutFields(fs[1..], drop)
  }

  /** Every level whose key is in `drop` popped from one field's dict. */
  function WithoutLevels(ls: seq<LevelEntry>, drop: set<string>): (r: seq<LevelEntry>)
    ensures forall le :: le in r <==> le in ls && le.level !in drop
  {
    if |ls| == 0 then []
    else (if ls[0].level in drop then [] else [ls[0]]) + WithoutLevels(ls[1..], drop)
  }

  function FieldsWithout(t: Tree, drop: set<string>): Tree
  {
    seq(|t|, i requires 0 <= i < |t| => MetricEntry(t[i].metric, WithoutFields(t[i].fields, drop)))
  }

  function LevelsWithoutIn(fs: seq<FieldEntry>, drop: set<string>): seq<FieldEntry>
  {
    seq(|fs|, i requires 0 <= i < |fs| => FieldEntry(fs[i].field, WithoutLevels(fs[i].levels, drop)))
  }

  function LevelsWithout(t: Tree, drop: set<string>): Tree
  {
    seq(|t|, i requires 0 <= i < |t| => MetricEntry(t[i].metric, LevelsWithoutIn(t[i].fields, drop)))
  }

  predicate AtOrBelowField(p: Path) { !p.MetricPath? }

  predicate AtOrBelowLevel(p: Path) { p.LevelPath? || p.ThreshPath? }

  /** Popping metrics removes exactly the paths that start at them. */
  lemma WithoutMetricsPaths(t: Tree, drop: set<string>)
    ensures forall p :: Has(WithoutMetrics(t, drop), p) <==> Has(t, p) && p.metric !in drop
  {
    var r := WithoutMetrics(t, drop);
    forall p ensures Has(r, p) <==> Has(t, p) && p.metric !in drop {
      match p
      case MetricPath(m) =>
      case FieldPath(m, f) =>
      case LevelPath(m, f, l) =>
      case ThreshPath(m, f, l, th) =>
    }
  }

  /** Popping a field under every metric removes exactly the paths through it. */
  lemma FieldsWithoutPaths(t: Tree, drop: set<string>)
    ensures forall p :: Has(FieldsWithout(t, drop), p) <==>
                        Has(t, p) && !(AtOrBelowField(p) && p.field in drop)
  {
    forall p ensures Has(FieldsWithout(t, drop), p) <==>
                     Has(t, p) && !(AtOrBelowField(p) && p.field in drop) {
      match p
      case MetricPath(m) => FieldsWithoutMetric(t, drop, m);
      case FieldPath(m, f) => FieldsWithoutField(t, drop, m, f);
      case LevelPath(m, f, l) => FieldsWithoutLevel(t, drop, m, f, l);
      case ThreshPath(m, f, l, th) => FieldsWithoutThresh(t, drop, m, f, l, th);
    }
  }

  lemma FieldsWithoutMetric(t: Tree, drop: set<string>, m: string)
    ensures HasMetric(FieldsWithout(t, drop), m) <==> HasMetric(t, m)
  {
    var r := FieldsWithout(t, drop);
    if HasMetric(t, m) {
      var e :| e in t && e.metric == m;
      var i :| 0 <= i < |t| && t[i] == e;
      assert r[i] in r;
    }
    if HasMetric(r, m) {
      var e :| e in r && e.metric == m;
      var i :| 0 <= i < |r| && r[i] == e;
      assert t[i] in t;
    }
  }

  /** The entry of the input an entry of FieldsWithout comes from. */
  lemma FieldsWithoutOrigin(t: Tree, drop: set<string>, e: MetricEntry) returns (o: MetricEntry)
    requires e in FieldsWithout(t, drop)
    ensures o in t && o.metric == e.metric
    ensures forall fe :: fe in e.fields ==> fe in o.fields && fe.field !in drop
  {
    var r := FieldsWithout(t, drop);
    var i :| 0 <= i < |r| && r[i] == e;
    o := t[i];
  }

  /** The entry of FieldsWithout an entry of the input becomes. */
  lemma FieldsWithoutImage(t: Tree, drop: set<string>, o: MetricEntry) returns (e: MetricEntry)
    requires o in t
    ensures e in FieldsWithout(t, drop) && e.metric == o.metric
    ensures forall fe :: fe in o.fields && fe.field !in drop ==> fe in e.fields
  {
    var r := FieldsWithout(t, drop);
    var i :| 0 <= i < |t| && t[i] == o;
    e := r[i];
  }

  lemma FieldsWithoutField(t: Tree, drop: set<string>, m: string, f: string)
    ensures HasField(FieldsWithout(t, drop), m, f) <==> HasField(t, m, f) && f !in drop
  {
    var r := FieldsWithout(t, drop);
    if HasField(t, m, f) && f !in drop {
      var o, fe :| o in t && fe in o.fields && o.metric == m && fe.field == f;
      var e := FieldsWithoutImage(t, drop, o);
      assert fe in e.fields;
    }
    if HasField(r, m, f) {
      var e, fe :| e in r && fe in e.fields && e.metric == m && fe.field == f;
      var o := FieldsWithoutOrigin(t, drop, e);
      assert fe in o.fields;
    }
  }

  lemma FieldsWithoutLevel(t: Tree, drop: set<string>, m: string, f: string, l: string)
    ensures HasLevel(FieldsWithout(t, drop), m, f, l) <==> HasLevel(t, m, f, l) && f !in drop
  {
    var r := FieldsWithout(t, drop);
    if HasLevel(t, m, f, l) && f !in drop {
      var o, fe, le :| o in t && fe in o.fields && le in fe.levels
                       && o.metric == m && fe.field == f && le.level == l;
      var e := FieldsWithoutImage(t, drop, o);
      assert fe in e.fields;
    }
    if HasLevel(r, m, f, l) {
      var e, fe, le :| e in r && fe in e.fields && le in fe.levels
                       && e.metric == m && fe.field == f && le.level == l;
      var o := FieldsWithoutOrigin(t, drop, e);
      assert fe in o.fields;
    }
  }

  lemma FieldsWithoutThresh(t: Tree, drop: set<string>, m: string, f: string, l: string, th: string)
    ensures HasThresh(FieldsWithout(t, drop), m, f, l, th) <==> HasThresh(t, m, f, l, th) && f !in drop
  {
    var r := FieldsWithout(t, drop);
    if HasThresh(t, m, f, l, th) && f !in drop {
      var o, fe, le :| o in t && fe in o.fields && le in fe.levels
                       && o.metric == m && fe.field == f && le.level == l && th in le.threshes;
      var e := FieldsWithoutImage(t, drop, o);
      assert fe in e.fields;
    }
    if HasThresh(r, m, f, l, th) {
      var e, fe, le :| e in r && fe in e.fields && le in fe.levels
                       && e.metric == m && fe.field == f && le.level == l && th in le.threshes;
      var o := FieldsWithoutOrigin(t, drop, e);
      assert fe in o.fields;
    }
  }

  /** Popping a level under every metric and field removes exactly the
      paths through it. */
  lemma LevelsWithoutPaths(t: Tree, drop: set<string>)
    ensures forall p :: Has(LevelsWithout(t, drop), p) <==>
                        Has(t, p) && !(AtOrBelowLevel(p) && p.level in drop)
  {
    forall p ensures Has(LevelsWithout(t, drop), p) <==>
                     Has(t, p) && !(AtOrBelowLevel(p) && p.level in drop) {
      match p
      case MetricPath(m) => LevelsWithoutMetric(t, drop, m);
      case FieldPath(m, f) => LevelsWithoutField(t, drop, m, f);
      case LevelPath(m, f, l) => LevelsWithoutLevel(t, drop, m, f, l);
      case ThreshPath(m, f, l, th) => LevelsWithoutThresh(t, drop, m, f, l, th);
    }
  }

  lemma LevelsWithoutMetric(t: Tree, drop: set<string>, m: string)
    ensures HasMetric(LevelsWithout(t, drop), m) <==> HasMetric(t, m)
  {
    var r := LevelsWithout(t, drop);
    if HasMetric(t, m) {
      var e :| e in t && e.metric == m;
      var i :| 0 <= i < |t| && t[i] == e;
      assert r[i] in r;
    }
    if HasMetric(r, m) {
      var e :| e in r && e.metric == m;
      var i :| 0 <= i < |r| && r[i] == e;
      assert t[i] in t;
    }
  }

  lemma LevelsWithoutField(t: Tree, drop: set<string>, m: string, f: string)
    ensures HasField(LevelsWithout(t, drop), m, f) <==> HasField(t, m, f)
  {
    var r := LevelsWithout(t, drop);
    if HasField(t, m, f) {
      var e, fe :| e in t && fe in e.fields && e.metric == m && fe.field == f;
      var i :| 0 <= i < |t| && t[i] == e;
      var j :| 0 <= j < |e.fields| && e.fields[j] == fe;
      assert r[i].fields[j] in r[i].fields && r[i] in r;
    }
    if HasField(r, m, f) {
      var e, fe :| e in r && fe in e.fields && e.metric == m && fe.field == f;
      var i :| 0 <= i < |r| && r[i] == e;
      var j :| 0 <= j < |e.fields| && e.fields[j] == fe;
      assert t[i].fields[j] in t[i].fields && t[i] in t;
    }
  }

  lemma LevelsWithoutLevel(t: Tree, drop: set<string>, m: string, f: string, l: string)
    ensures HasLevel(LevelsWithout(t, drop), m, f, l) <==> HasLevel(t, m, f, l) && l !in drop
  {
    if HasLevel(t, m, f, l) && l !in drop {
      var e, fe, le :| e in t && fe in e.fields && le in fe.levels
                       && e.metric == m && fe.field == f && le.level == l;
      LevelKept(t, drop, e, fe, le);
    }
    if HasLevel(LevelsWithout(t, drop), m, f, l) {
      var e, fe, le :| e in LevelsWithout(t, drop) && fe in e.fields && le in fe.levels
                       && e.metric == m && fe.field == f && le.level == l;
      LevelOrigin(t, drop, e, fe, le);
    }
  }

  lemma LevelsWithoutThresh(t: Tree, drop: set<string>, m: string, f: string, l: string, th: string)
    ensures HasThresh(LevelsWithout(t, drop), m, f, l, th) <==> HasThresh(t, m, f, l, th) && l !in drop
  {
    if HasThresh(t, m, f, l, th) && l !in drop {
      var e, fe, le :| e in t && fe in e.fields && le in fe.levels
                       && e.metric == m && fe.field == f && le.level == l && th in le.threshes;
      LevelKept(t, drop, e, fe, le);
    }
    if HasThresh(LevelsWithout(t, drop), m, f, l, th) {
      var e, fe, le :| e in LevelsWithout(t, drop) && fe in e.fields && le in fe.levels
                       && e.metric == m && fe.field == f && le.level == l && th in le.threshes;
      LevelOrigin(t, drop, e, fe, le);
    }
  }

  /** A level entry that is not popped is still reachable under the same
      metric and field keys. */
  lemma LevelKept(t: Tree, drop: set<string>, e: MetricEntry, fe: FieldEntry, le: LevelEntry)
    requires e in t && fe in e.fields && le in fe.levels && le.level !in drop
    ensures exists e', fe' :: e' in LevelsWithout(t, drop) && fe' in e'.fields && le in fe'.levels
                              && e'.metric == e.metric && fe'.field == fe.field
  {
    var r := LevelsWithout(t, drop);
    var i :| 0 <= i < |t| && t[i] == e;
    var j :| 0 <= j < |e.fields| && e.fields[j] == fe;
    var fe' := r[i].fields[j];
    assert fe' == FieldEntry(fe.field, WithoutLevels(fe.levels, drop));
    assert le in fe'.levels;
    assert fe' in r[i].fields && r[i] in r;
  }

  /** Every level entry left after popping comes from the original tree. */
  lemma LevelOrigin(t: Tree, drop: set<string>, e: MetricEntry, fe: FieldEntry, le: LevelEntry)
    requires e in LevelsWithout(t, drop) && fe in e.fields && le in fe.levels
    ensures le.level !in drop
    ensures exists e', fe' :: e' in t && fe' in e'.fields && le in fe'.levels
                              && e'.metric == e.metric && fe'.field == fe.field
  {
    var r := LevelsWithout(t, drop);
    var i :| 0 <= i < |r| && r[i] == e;
    var j :| 0 <= j < |e.fields| && e.fields[j] == fe;
    var fe' := t[i].fields[j];
    assert fe == FieldEntry(fe'.field, WithoutLevels(fe'.levels, drop));
    assert le in fe'.levels;
    assert fe' in t[i].fields && t[i] in t;
  }

  // ------------------------------------------------ threshold filtering

  /** --incl_only_threshes keeps the listed thresholds, --excl_threshes
      discards them. */
  datatype ThreshSelection = KeepOnly(keep: set<string>) | Discard(discard: set<string>)

  predicate Kept(sel: ThreshSelection, th: string)
  {
    match sel
    case KeepOnly(k) => th in k
    case Discard(d) => th !in d
  }

  /** `filtered` is a value list(set(threshes) & keep) or
      list(set(threshes) - discard) can take: each kept threshold once, in
      an order that Python leaves to string hashing. */
  predicate FilteredList(threshes: seq<string>, filtered: seq<string>, sel: ThreshSelection)
  {
    NoDup(filtered)
    && (forall th :: th in filtered ==> th in threshes && Kept(sel, th))
    && (forall th :: th in threshes && Kept(sel, th) ==> th in filtered)
  }

  /** t' is t with every level's threshold list filtered, keys unchanged. */
  predicate ThreshFiltered(t: Tree, t': Tree, sel: ThreshSelection)
  {
    |t'| == |t| &&
    forall i :: 0 <= i < |t| ==>
      t'[i].metric == t[i].metric && |t'[i].fields| == |t[i].fields| &&
      forall j :: 0 <= j < |t[i].fields| ==>
        t'[i].fields[j].field == t[i].fields[j].field &&
        |t'[i].fields[j].levels| == |t[i].fields[j].levels| &&
        forall k :: 0 <= k < |t[i].fields[j].levels| ==>
          t'[i].fields[j].levels[k].level == t[i].fields[j].levels[k].level &&
          FilteredList(t[i].fields[j].levels[k].threshes, t'[i].fields[j].levels[k].threshes, sel)
  }

  /** Filtering threshold lists removes exactly the unselected thresholds
      and leaves every metric, field and level key in place. */
  lemma ThreshFilteredPaths(t: Tree, t': Tree, sel: ThreshSelection)
    requires ThreshFiltered(t, t', sel)
    ensures forall p :: Has(t', p) <==> Has(t, p) && (p.ThreshPath? ==> Kept(sel, p.thresh))
  {
    forall p ensures Has(t', p) <==> Has(t, p) && (p.ThreshPath? ==> Kept(sel, p.thresh)) {
      match p
      case MetricPath(m) => ThreshFilteredMetric(t, t', sel, m);
      case FieldPath(m, f) => ThreshFilteredField(t, t', sel, m, f);
      case LevelPath(m, f, l) => ThreshFilteredLevel(t, t', sel, m, f, l);
      case ThreshPath(m, f, l, th) => ThreshFilteredThresh(t, t', sel, m, f, l, th);
    }
  }

  lemma ThreshFilteredMetric(t: Tree, t': Tree, sel: ThreshSelection, m: string)
    requires ThreshFiltered(t, t', sel)
    ensures HasMetric(t', m) <==> HasMetric(t, m)
  {
    if HasMetric(t, m) {
      var e :| e in t && e.metric == m;
      var i :| 0 <= i < |t| && t[i] == e;
      assert t'[i] in t';
    }
    if HasMetric(t', m) {
      var e :| e in t' && e.metric == m;
      var i :| 0 <= i < |t'| && t'[i] == e;
      assert t[i] in t;
    }
  }

  lemma ThreshFilteredField(t: Tree, t': Tree, sel: ThreshSelection, m: string, f: string)
    requires ThreshFiltered(t, t', sel)
    ensures HasField(t', m, f) <==> HasField(t, m, f)
  {
    if HasField(t, m, f) {
      var e, fe :| e in t && fe in e.fields && e.metric == m && fe.field == f;
      var i, j := FilteredFieldAt(t, t', sel, e, fe);
    }
    if HasField(t', m, f) {
      var e, fe :| e in t' && fe in e.fields && e.metric == m && fe.field == f;
      var i :| 0 <= i < |t'| && t'[i] == e;
      var j :| 0 <= j < |e.fields| && e.fields[j] == fe;
      assert t[i].fields[j] in t[i].fields && t[i] in t;
    }
  }

  lemma ThreshFilteredLevel(t: Tree, t': Tree, sel: ThreshSelection, m: string, f: string, l: string)
    requires ThreshFiltered(t, t', sel)
    ensures HasLevel(t', m, f, l) <==> HasLevel(t, m, f, l)
  {
    if HasLevel(t, m, f, l) {
      var e, fe, le :| e in t && fe in e.fields && le in fe.levels
                       && e.metric == m && fe.field == f && le.level == l;
      FilteredLevelKept(t, t', sel, e, fe, le);
    }
    if HasLevel(t', m, f, l) {
      var e, fe, le :| e in t' && fe in e.fields && le in fe.levels
                       && e.metric == m && fe.field == f && le.level == l;
      FilteredLevelOrigin(t, t', sel, e, fe, le);
    }
  }

  lemma ThreshFilteredThresh(t: Tree, t': Tree, sel: ThreshSelection,
                             m: string, f: string, l: string, th: string)
    requires ThreshFiltered(t, t', sel)
    ensures HasThresh(t', m, f, l, th) <==> HasThresh(t, m, f, l, th) && Kept(sel, th)
  {
    if HasThresh(t, m, f, l, th) && Kept(sel, th) {
      var e, fe, le :| e in t && fe in e.fields && le in fe.levels
                       && e.metric == m && fe.field == f && le.level == l && th in le.threshes;
      FilteredLevelKept(t, t', sel, e, fe, le);
    }
    if HasThresh(t', m, f, l, th) {
      var e, fe, le :| e in t' && fe in e.fields && le in fe.levels
                       && e.metric == m && fe.field == f && le.level == l && th in le.threshes;
      FilteredLevelOrigin(t, t', sel, e, fe, le);
    }
  }

  lemma FilteredFieldAt(t: Tree, t': Tree, sel: ThreshSelection, e: MetricEntry, fe: FieldEntry)
    returns (i: nat, j: nat)
    requires ThreshFiltered(t, t', sel) && e in t && fe in e.fields
    ensures i < |t| && t[i] == e && j < |e.fields| && e.fields[j] == fe
    ensures t'[i] in t' && t'[i].fields[j] in t'[i].fields
    ensures t'[i].metric == e.metric && t'[i].fields[j].field == fe.field
  {
    i :| 0 <= i < |t| && t[i] == e;
    j :| 0 <= j < |e.fields| && e.fields[j] == fe;
  }

  lemma FilteredLevelKept(t: Tree, t': Tree, sel: ThreshSelection,
                          e: MetricEntry, fe: FieldEntry, le: LevelEntry)
    requires ThreshFiltered(t, t', sel) && e in t && fe in e.fields && le in fe.levels
    ensures exists e', fe', le' :: e' in t' && fe' in e'.fields && le' in fe'.levels
              && e'.metric == e.metric && fe'.field == fe.field && le'.level == le.level
              && FilteredList(le.threshes, le'.threshes, sel)
  {
    var i, j := FilteredFieldAt(t, t', sel, e, fe);
    var k :| 0 <= k < |fe.levels| && fe.levels[k] == le;
    assert t'[i].fields[j].levels[k] in t'[i].fields[j].levels;
  }

  lemma FilteredLevelOrigin(t: Tree, t': Tree, sel: ThreshSelection,
                            e: MetricEntry, fe: FieldEntry, le: LevelEntry)
    requires ThreshFiltered(t, t', sel) && e in t' && fe in e.fields && le in fe.levels
    ensures exists e', fe', le' :: e' in t && fe' in e'.fields && le' in fe'.levels
              && e'.metric == e.metric && fe'.field == fe.field && le'.level == le.level
              && FilteredList(le'.threshes, le.threshes, sel)
  {
    var i :| 0 <= i < |t'| && t'[i] == e;
    var j :| 0 <= j < |e.fields| && e.fields[j] == fe;
    var k :| 0 <= k < |fe.levels| && fe.levels[k] == le;
    FilteredAt(t, t', sel, i, j, k);
    var e', fe', le' := t[i], t[i].fields[j], t[i].fields[j].levels[k];
    assert e' in t && fe' in e'.fields && le' in fe'.levels;
  }

  /** ThreshFiltered at one level position. */
  lemma FilteredAt(t: Tree, t': Tree, sel: ThreshSelection, i: nat, j: nat, k: nat)
    requires ThreshFiltered(t, t', sel)
    requires i < |t'| && j < |t'[i].fields| && k < |t'[i].fields[j].levels|
    ensures i < |t| && j < |t[i].fields| && k < |t[i].fields[j].levels|
    ensures t[i].metric == t'[i].metric && t[i].fields[j].field == t'[i].fields[j].field
    ensures t[i].fields[j].levels[k].level == t'[i].fields[j].levels[k].level
    ensures FilteredList(t[i].fields[j].levels[k].threshes, t'[i].fields[j].levels[k].threshes, sel)
  {
  }

  // ------------------------------------------------------------ pruning

  /** The value of vx_metric_needs_thresh for a metric (false when absent;
      the reducer only asks about metrics its validation has already looked
      up). */
  function NeedsThresh(needs: map<string, bool>, m: string): bool
  {
    m in needs && needs[m]
  }

  /** Metrics left with an empty field dict are popped. */
  function DropEmptyMetrics(t: Tree): (r: Tree)
    ensures forall e :: e in r <==> e in t && |e.fields| > 0
  {
    if |t| == 0 then []
    else (if |t[0].fields| == 0 then [] else [t[0]]) + DropEmptyMetrics(t[1..])
  }

  /** Fields left with an empty level dict are popped. */
  function DropEmptyFields(fs: seq<FieldEntry>): (r: seq<FieldEntry>)
    ensures forall fe :: fe in r <==> fe in fs && |fe.levels| > 0
  {
    if |fs| == 0 then []
    else (if |fs[0].levels| == 0 then [] else [fs[0]]) + DropEmptyFields(fs[1..])
  }

  /** Levels of a metric that needs thresholds are popped when their
      threshold list became empty. */
  function DropThreshlessLevels(ls: seq<LevelEntry>, needsThresh: bool): (r: seq<LevelEntry>)
    ensures forall le :: le in r <==> le in ls && !(needsThresh && |le.threshes| == 0)
  {
    if |ls| == 0 then []
    else (if needsThresh && |ls[0].threshes| == 0 then [] else [ls[0]])
         + DropThreshlessLevels(ls[1..], needsThresh)
  }

  function EmptyFieldsDropped(t: Tree): Tree
  {
    seq(|t|, i requires 0 <= i < |t| => MetricEntry(t[i].metric, DropEmptyFields(t[i].fields)))
  }

  function ThreshlessDroppedIn(fs: seq<FieldEntry>, needsThresh: bool): seq<FieldEntry>
  {
    seq(|fs|, j requires 0 <= j < |fs| =>
          FieldEntry(fs[j].field, DropThreshlessLevels(fs[j].levels, needsThresh)))
  }

  function ThreshlessDropped(t: Tree, needs: map<string, bool>): Tree
  {
    seq(|t|, i requires 0 <= i < |t| =>
          MetricEntry(t[i].metric, ThreshlessDroppedIn(t[i].fields, NeedsThresh(needs, t[i].metric))))
  }

  /** The clean-up after the level filters: empty fields, then empty metrics. */
  function PruneLevelStage(t: Tree): Tree
  {
    DropEmptyMetrics(EmptyFieldsDropped(t))
  }

  /** The clean-up after the threshold filters: threshold-less levels of
      metrics that need thresholds, then empty fields, then empty metrics. */
  function PruneThreshStage(t: Tree, needs: map<string, bool>): Tree
  {
    PruneLevelStage(ThreshlessDropped(t, needs))
  }

  predicate NoEmptyMetrics(t: Tree)
  {
    forall e :: e in t ==> |e.fields| > 0
  }

  predicate NoEmptyFields(t: Tree)
  {
    NoEmptyMetrics(t) && forall e, fe :: e in t && fe in e.fields ==> |fe.levels| > 0
  }

  predicate NoThreshlessLevels(t: Tree, needs: map<string, bool>)
  {
    forall e, fe, le :: e in t && fe in e.fields && le in fe.levels && NeedsThresh(needs, e.metric)
                        ==> |le.threshes| > 0
  }

  /** Popping empty metrics only drops the metric keys that have nothing
      below them. */
  lemma DropEmptyMetricsPaths(t: Tree)
    ensures NoEmptyMetrics(DropEmptyMetrics(t))
    ensures forall p :: Has(DropEmptyMetrics(t), p) ==> Has(t, p)
    ensures forall p :: Has(t, p) && AtOrBelowField(p) ==> Has(DropEmptyMetrics(t), p)
  {
  }

  /** Dropping the fields without levels keeps every level and threshold
      key, adds none, and leaves no field without levels. */
  lemma EmptyFieldsDroppedPaths(t: Tree)
    ensures forall p :: Has(EmptyFieldsDropped(t), p) ==> Has(t, p)
    ensures forall p :: Has(t, p) && AtOrBelowLevel(p) ==> Has(EmptyFieldsDropped(t), p)
    ensures forall e, fe :: e in EmptyFieldsDropped(t) && fe in e.fields ==> |fe.levels| > 0
  {
    EmptyFieldsDroppedAddsNone(t);
    EmptyFieldsDroppedKeepsLevels(t);
  }

  /** The entry of the input an entry of EmptyFieldsDropped comes from. */
  lemma EmptyFieldsDroppedOrigin(t: Tree, e: MetricEntry) returns (o: MetricEntry)
    requires e in EmptyFieldsDropped(t)
    ensures o in t && o.metric == e.metric
    ensures forall fe :: fe in e.fields ==> fe in o.fields
  {
    var r := EmptyFieldsDropped(t);
    var i :| 0 <= i < |r| && r[i] == e;
    o := t[i];
  }

  lemma EmptyFieldsDroppedAddsNone(t: Tree)
    ensures forall p :: Has(EmptyFieldsDropped(t), p) ==> Has(t, p)
  {
    var r := EmptyFieldsDropped(t);
    forall p | Has(r, p) ensures Has(t, p) {
      match p
      case MetricPath(m) =>
        var e :| e in r && e.metric == m;
        var o := EmptyFieldsDroppedOrigin(t, e);
      case FieldPath(m, f) =>
        var e, fe :| e in r && fe in e.fields && e.metric == m && fe.field == f;
        var o := EmptyFieldsDroppedOrigin(t, e);
        assert fe in o.fields;
      case LevelPath(m, f, l) =>
        var e, fe, le :| e in r && fe in e.fields && le in fe.levels
                         && e.metric == m && fe.field == f && le.level == l;
        var o := EmptyFieldsDroppedOrigin(t, e);
        assert fe in o.fields;
      case ThreshPath(m, f, l, th) =>
        var e, fe, le :| e in r && fe in e.fields && le in fe.levels
                         && e.metric == m && fe.field == f && le.level == l && th in le.threshes;
        var o := EmptyFieldsDroppedOrigin(t, e);
        assert fe in o.fields;
    }
  }

  lemma EmptyFieldsDroppedKeepsLevels(t: Tree)
    ensures forall p :: Has(t, p) && AtOrBelowLevel(p) ==> Has(EmptyFieldsDropped(t), p)
  {
    var r := EmptyFieldsDropped(t);
    forall p | Has(t, p) && AtOrBelowLevel(p) ensures Has(r, p) {
      match p
      case LevelPath(m, f, l) =>
        var e, fe, le :| e in t && fe in e.fields && le in fe.levels
                         && e.metric == m && fe.field == f && le.level == l;
        var i :| 0 <= i < |t| && t[i] == e;
        assert r[i] in r && fe in r[i].fields;
      case ThreshPath(m, f, l, th) =>
        var e, fe, le :| e in t && fe in e.fields && le in fe.levels
                         && e.metric == m && fe.field == f && le.level == l && th in le.threshes;
        var i :| 0 <= i < |t| && t[i] == e;
        assert r[i] in r && fe in r[i].fields;
    }
  }

  /** The level-stage clean-up removes only keys with nothing below them:
      every level and threshold path survives, and no empty dict remains. */
  lemma PruneLevelStagePaths(t: Tree)
    ensures NoEmptyFields(PruneLevelStage(t))
    ensures forall p :: Has(PruneLevelStage(t), p) ==> Has(t, p)
    ensures forall p :: Has(t, p) && AtOrBelowLevel(p) ==> Has(PruneLevelStage(t), p)
  {
    EmptyFieldsDroppedPaths(t);
    DropEmptyMetricsPaths(EmptyFieldsDropped(t));
  }

  /** Every level entry left by the level-stage clean-up sits in the input
      under the same metric. */
  lemma PruneLevelStageEntries(t: Tree, e: MetricEntry, fe: FieldEntry, le: LevelEntry)
    requires e in PruneLevelStage(t) && fe in e.fields && le in fe.levels
    ensures exists e0, fe0 :: e0 in t && fe0 in e0.fields && le in fe0.levels && e0.metric == e.metric
  {
    var r := EmptyFieldsDropped(t);
    assert e in r;
    var i :| 0 <= i < |r| && r[i] == e;
    assert t[i] in t && fe in t[i].fields;
  }

  lemma ThreshlessDroppedPaths(t: Tree, needs: map<string, bool>)
    ensures NoThreshlessLevels(ThreshlessDropped(t, needs), needs)
    ensures forall p :: Has(ThreshlessDropped(t, needs), p) ==> Has(t, p)
    ensures forall p :: Has(t, p) && p.ThreshPath? ==> Has(ThreshlessDropped(t, needs), p)
    ensures forall p :: Has(t, p) && p.LevelPath? && !NeedsThresh(needs, p.metric)
                        ==> Has(ThreshlessDropped(t, needs), p)
  {
    var r := ThreshlessDropped(t, needs);
    forall p | Has(r, p) ensures Has(t, p) {
      match p
      case MetricPath(m) =>
        var e :| e in r && e.metric == m;
        var i :| 0 <= i < |r| && r[i] == e;
        assert t[i] in t;
      case FieldPath(m, f) =>
        var e, fe :| e in r && fe in e.fields && e.metric == m && fe.field == f;
        ThreshlessOrigin(t, needs, e, fe);
      case LevelPath(m, f, l) =>
        var e, fe, le :| e in r && fe in e.fields && le in fe.levels
                         && e.metric == m && fe.field == f && le.level == l;
        ThreshlessOrigin(t, needs, e, fe);
      case ThreshPath(m, f, l, th) =>
        var e, fe, le :| e in r && fe in e.fields && le in fe.levels
                         && e.metric == m && fe.field == f && le.level == l && th in le.threshes;
        ThreshlessOrigin(t, needs, e, fe);
    }
    forall p | Has(t, p) && (p.ThreshPath? || (p.LevelPath? && !NeedsThresh(needs, p.metric)))
      ensures Has(r, p)
    {
      match p
      case LevelPath(m, f, l) =>
        var e, fe, le :| e in t && fe in e.fields && le in fe.levels
                         && e.metric == m && fe.field == f && le.level == l;
        ThreshlessKept(t, needs, e, fe, le);
      case ThreshPath(m, f, l, th) =>
        var e, fe, le :| e in t && fe in e.fields && le in fe.levels
                         && e.metric == m && fe.field == f && le.level == l && th in le.threshes;
        ThreshlessKept(t, needs, e, fe, le);
    }
    forall e, fe, le | e in r && fe in e.fields && le in fe.levels && NeedsThresh(needs, e.metric)
      ensures |le.threshes| > 0
    {
      var i :| 0 <= i < |r| && r[i] == e;
      var j :| 0 <= j < |e.fields| && e.fields[j] == fe;
    }
  }

  lemma ThreshlessOrigin(t: Tree, needs: map<string, bool>, e: MetricEntry, fe: FieldEntry)
    requires e in ThreshlessDropped(t, needs) && fe in e.fields
    ensures exists e0, fe0 :: e0 in t && fe0 in e0.fields && e0.metric == e.metric
              && fe0.field == fe.field && forall le :: le in fe.levels ==> le in fe0.levels
  {
    var r := ThreshlessDropped(t, needs);
    var i :| 0 <= i < |r| && r[i] == e;
    var j :| 0 <= j < |e.fields| && e.fields[j] == fe;
    assert t[i] in t && t[i].fields[j] in t[i].fields;
  }

  lemma ThreshlessKept(t: Tree, needs: map<string, bool>, e: MetricEntry, fe: FieldEntry, le: LevelEntry)
    requires e in t && fe in e.fields && le in fe.levels
    requires !(NeedsThresh(needs, e.metric) && |le.threshes| == 0)
    ensures exists e', fe' :: e' in ThreshlessDropped(t, needs) && fe' in e'.fields && le in fe'.levels
              && e'.metric == e.metric && fe'.field == fe.field
  {
    var r := ThreshlessDropped(t, needs);
    var i :| 0 <= i < |t| && t[i] == e;
    var j :| 0 <= j < |e.fields| && e.fields[j] == fe;
    assert r[i] in r && r[i].fields[j] in r[i].fields;
    assert le in r[i].fields[j].levels;
  }

  /** The threshold-stage clean-up keeps every threshold and every level of
      a metric that needs no threshold, and leaves no empty dict and no
      threshold-less level of a metric that needs one. */
  /** PruneThreshStagePaths for one path. */
  lemma PruneThreshPath(t: Tree, needs: map<string, bool>, p: Path)
    ensures Has(PruneThreshStage(t, needs), p) ==> Has(t, p)
    ensures Has(t, p) && p.ThreshPath? ==> Has(PruneThreshStage(t, needs), p)
    ensures Has(t, p) && p.LevelPath? && !NeedsThresh(needs, p.metric) ==> Has(PruneThreshStage(t, needs), p)
  {
    PruneThreshStagePaths(t, needs);
  }

  lemma PruneThreshStagePaths(t: Tree, needs: map<string, bool>)
    ensures NoEmptyFields(PruneThreshStage(t, needs))
    ensures NoThreshlessLevels(PruneThreshStage(t, needs), needs)
    ensures forall p :: Has(PruneThreshStage(t, needs), p) ==> Has(t, p)
    ensures forall p :: Has(t, p) && p.ThreshPath? ==> Has(PruneThreshStage(t, needs), p)
    ensures forall p :: Has(t, p) && p.LevelPath? && !NeedsThresh(needs, p.metric)
                        ==> Has(PruneThreshStage(t, needs), p)
  {
    var d := ThreshlessDropped(t, needs);
    ThreshlessDroppedPaths(t, needs);
    PruneLevelStagePaths(d);
    var r := PruneThreshStage(t, needs);
    forall e, fe, le | e in r && fe in e.fields && le in fe.levels && NeedsThresh(needs, e.metric)
      ensures |le.threshes| > 0
    {
      PruneLevelStageEntries(d, e, fe, le);
    }
  }

  // --------------------------------------------------------------- jobs

  /** One call of the single-plot script. */
  datatype Job = Job(metric: string, field: string, level: string, thresh: string)

  /** The thresholds a level is plotted for: its list, or the single empty
      threshold for a metric that needs none. */
  function JobThreshes(le: LevelEntry, needsThresh: bool): seq<string>
  {
    if needsThresh then le.threshes else [""]
  }

  function ThreshJobs(m: string, f: string, l: string, ths: seq<string>): seq<Job>
  {
    seq(|ths|, k requires 0 <= k < |ths| => Job(m, f, l, ths[k]))
  }

  function LevelJobs(m: string, f: string, ls: seq<LevelEntry>, needsThresh: bool): seq<Job>
  {
    if |ls| == 0 then []
    else ThreshJobs(m, f, ls[0].level, JobThreshes(ls[0], needsThresh))
         + LevelJobs(m, f, ls[1..], needsThresh)
  }

  function FieldJobs(m: string, fs: seq<FieldEntry>, needsThresh: bool): seq<Job>
  {
    if |fs| == 0 then []
    else LevelJobs(m, fs[0].field, fs[0].levels, needsThresh) + FieldJobs(m, fs[1..], needsThresh)
  }

  /** The calls the dispatch loop makes, in the order it makes them: metrics,
      then fields, then levels, then thresholds, each in dict order. */
  function Jobs(t: Tree, needs: map<string, bool>): seq<Job>
  {
    if |t| == 0 then []
    else FieldJobs(t[0].metric, t[0].fields, NeedsThresh(needs, t[0].metric)) + Jobs(t[1..], needs)
  }

  lemma {:induction false} LevelJobsIff(m: string, f: string, ls: seq<LevelEntry>, nt: bool, j: Job)
    ensures j in LevelJobs(m, f, ls, nt) <==>
              j.metric == m && j.field == f &&
              exists le :: le in ls && le.level == j.level && j.thresh in JobThreshes(le, nt)
  {
    if |ls| > 0 {
      LevelJobsIff(m, f, ls[1..], nt, j);
      var head := ThreshJobs(m, f, ls[0].level, JobThreshes(ls[0], nt));
      if j in head {
        var k :| 0 <= k < |head| && head[k] == j;
        assert ls[0] in ls;
      }
      if j.metric == m && j.field == f && j.level == ls[0].level && j.thresh in JobThreshes(ls[0], nt) {
        var ths := JobThreshes(ls[0], nt);
        var k :| 0 <= k < |ths| && ths[k] == j.thresh;
        assert head[k] == j;
      }
      forall le | le in ls ensures le == ls[0] || le in ls[1..] {
      }
    }
  }

  lemma {:induction false} FieldJobsIff(m: string, fs: seq<FieldEntry>, nt: bool, j: Job)
    ensures j in FieldJobs(m, fs, nt) <==>
              j.metric == m &&
              exists fe, le :: fe in fs && le in fe.levels && fe.field == j.field
                               && le.level == j.level && j.thresh in JobThreshes(le, nt)
  {
    if |fs| > 0 {
      FieldJobsIff(m, fs[1..], nt, j);
      LevelJobsIff(m, fs[0].field, fs[0].levels, nt, j);
      assert fs[0] in fs;
      forall fe | fe in fs ensures fe == fs[0] || fe in fs[1..] {
      }
    }
  }

  lemma {:induction false} JobsIff(t: Tree, needs: map<string, bool>, j: Job)
    ensures j in Jobs(t, needs) <==>
              exists e, fe, le :: e in t && fe in e.fields && le in fe.levels
                && e.metric == j.metric && fe.field == j.field && le.level == j.level
                && j.thresh in JobThreshes(le, NeedsThresh(needs, e.metric))
  {
    if |t| > 0 {
      JobsIff(t[1..], needs, j);
      FieldJobsIff(t[0].metric, t[0].fields, NeedsThresh(needs, t[0].metric), j);
      assert t[0] in t;
      forall e | e in t ensures e == t[0] || e in t[1..] {
      }
    }
  }

  /** The dispatch loop calls the plot script exactly for the thresholds of
      metrics that need one, and once with an empty threshold for each level
      of a metric that needs none. */
  lemma JobsPaths(t: Tree, needs: map<string, bool>)
    ensures forall j :: j in Jobs(t, needs) <==>
              if NeedsThresh(needs, j.metric) then HasThresh(t, j.metric, j.field, j.level, j.thresh)
              else j.thresh == "" && HasLevel(t, j.metric, j.field, j.level)
  {
    forall j ensures j in Jobs(t, needs) <==>
              if NeedsThresh(needs, j.metric) then HasThresh(t, j.metric, j.field, j.level, j.thresh)
              else j.thresh == "" && HasLevel(t, j.metric, j.field, j.level)
    {
      JobsIff(t, needs, j);
    }
  }

  /** A non-empty pruned tree always yields at least one plot-script call. */
  lemma JobsNonEmpty(t: Tree, needs: map<string, bool>)
    requires |t| > 0 && NoEmptyFields(t) && NoThreshlessLevels(t, needs)
    ensures |Jobs(t, needs)| > 0
  {
    var e := t[0];
    assert e in t;
    var fe := e.fields[0];
    assert fe in e.fields;
    var le := fe.levels[0];
    assert le in fe.levels;
    var ths := JobThreshes(le, NeedsThresh(needs, e.metric));
    var j := Job(e.metric, fe.field, le.level, ths[0]);
    JobsIff(t, needs, j);
  }
}
