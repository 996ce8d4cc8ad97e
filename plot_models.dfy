/**
 * The models of a METviewer database and what make_single_mv_vx_plot.py
 * does with the models named on the command line: the checks on them, and
 * the reordering that puts them in the alphabetical order of their long
 * names (the order METviewer expects) while keeping each model's colour
 * and ensemble size with it.
 */
module PlotModels {
  import opened Wrappers
  import opened PySeq
  import opened PlotParams

  /** One entry of a database's 'models' list. */
  datatype ModelInfo = ModelInfo(longName: string, shortName: string, numEnsMems: int)

  /** One entry of the database configuration file. */
  datatype Database = Database(validThreshes: seq<string>, models: seq<ModelInfo>)

  function LongName(m: ModelInfo): string { m.longName }
  function ShortName(m: ModelInfo): string { m.shortName }

  function Longs(ms: seq<ModelInfo>): seq<string> { MapSeq(ms, LongName) }
  function Shorts(ms: seq<ModelInfo>): seq<string> { MapSeq(ms, ShortName) }

  /** model_info sorted on the long names. */
  function SortedModels(ms: seq<ModelInfo>): (r: seq<ModelInfo>)
    ensures multiset(r) == multiset(ms) && SortedBy(r, LongName)
  {
    SortBy(ms, LongName)
  }

  /** Sorting the database leaves the same short names available. */
  lemma SortedShorts(ms: seq<ModelInfo>, s: string)
    ensures s in Shorts(SortedModels(ms)) <==> s in Shorts(ms)
  {
    MapMultiset(SortedModels(ms), ms, ShortName);
    assert s in Shorts(SortedModels(ms)) <==> s in multiset(Shorts(SortedModels(ms)));
  }

  /**
   * The checks on the models and the threshold that come before the
   * reordering, in their order: no model named twice, every model known
   * to the database, and a threshold (when one is given) that the database
   * lists.
   */
  function CheckModels(db: Database, shorts: seq<string>, threshold: string): (r: Option<Failure>)
    ensures r.None? <==>
      NoDup(shorts) && (forall m :: m in shorts ==> m in Shorts(db.models))
      && (threshold == "" || threshold in db.validThreshes)
    ensures r.Some? && r.value.DuplicateModels? ==>
      r.value.duplicates != {} && forall m :: m in r.value.duplicates <==> multiset(shorts)[m] > 1
    ensures r.Some? && r.value.UnknownModel? ==>
      NoDup(shorts) && r.value.short in shorts && r.value.short !in Shorts(db.models)
    ensures r.Some? && r.value.ThreshNotInDb? ==>
      NoDup(shorts) && (forall m :: m in shorts ==> m in Shorts(db.models))
      && r.value.thresh == threshold && threshold !in db.validThreshes
    ensures r.Some? ==> r.value.DuplicateModels? || r.value.UnknownModel? || r.value.ThreshNotInDb?
  {
    var sorted := SortedModels(db.models);
    var dups := Duplicates(shorts);
    DuplicatesEmpty(shorts);
    if dups != {} then Some(DuplicateModels(dups))
    else
      match FirstNotIn(shorts, Shorts(sorted))
      case Some(m) =>
        SortedShorts(db.models, m);
        Some(UnknownModel(m))
      case None =>
        assert forall m :: m in shorts ==> m in Shorts(db.models) by {
          forall m | m in shorts ensures m in Shorts(db.models) {
            SortedShorts(db.models, m);
          }
        }
        if threshold != "" && threshold !in db.validThreshes then Some(ThreshNotInDb(threshold))
        else None
  }

  // ---------------------------------------------------------- reordering

  /** The long name of the first model with this short name. */
  function LongOfShort(ms: seq<ModelInfo>, s: string): string
  {
    if s in Shorts(ms) then ms[IndexOf(Shorts(ms), s)].longName else ""
  }

  /** The first model with this long name. */
  function ModelOfLong(ms: seq<ModelInfo>, l: string): ModelInfo
  {
    if l in Longs(ms) then ms[IndexOf(Longs(ms), l)] else ModelInfo("", "", 0)
  }

  function ShortOfLong(ms: seq<ModelInfo>, l: string): string { ModelOfLong(ms, l).shortName }
  function EnsOfLong(ms: seq<ModelInfo>, l: string): int { ModelOfLong(ms, l).numEnsMems }

  /** The long names of the models to plot, sorted. */
  function LongNamesToPlot(sorted: seq<ModelInfo>, shorts: seq<string>): (r: seq<string>)
    ensures |r| == |shorts|
    ensures multiset(r) == multiset(MapSeq(shorts, s => LongOfShort(sorted, s)))
    ensures SortedBy(r, Identity)
  {
    SortStrings(MapSeq(shorts, s => LongOfShort(sorted, s)))
  }

  /** The new value of the short-name list: the models in long-name order. */
  function ReorderedShorts(sorted: seq<ModelInfo>, shorts: seq<string>): (r: seq<string>)
    ensures |r| == |shorts|
  {
    MapSeq(LongNamesToPlot(sorted, shorts), l => ShortOfLong(sorted, l))
  }

  /** The ensemble size of each model, in the new order. */
  function ReorderedEnsMems(sorted: seq<ModelInfo>, shorts: seq<string>): (r: seq<int>)
    ensures |r| == |shorts|
  {
    MapSeq(LongNamesToPlot(sorted, shorts), l => EnsOfLong(sorted, l))
  }

  /**
   * The new colour list: for each model in the new order, the colour given
   * at that model's place in the original list.  A model missing from the
   * original list stops with list.index's ValueError, and a place past the
   * end of the colour list with an IndexError.
   */
  function RemapColors(orig: seq<string>, reordered: seq<string>, colors: seq<string>): (r: Result<seq<string>, Failure>)
    ensures r.Ok? <==>
      forall k :: 0 <= k < |reordered| ==> reordered[k] in orig && IndexOf(orig, reordered[k]) < |colors|
    ensures r.Ok? ==> |r.value| == |reordered|
    ensures r.Ok? ==> forall k :: 0 <= k < |reordered| ==> r.value[k] == colors[IndexOf(orig, reordered[k])]
    ensures r.Err? ==> r.error.NotInList? || r.error == ColorIndexOutOfRange
    ensures r.Err? && r.error.NotInList? ==> r.error.value in reordered && r.error.value !in orig
  {
    match FirstNotIn(reordered, orig)
    case Some(v) => Err(NotInList(v))
    case None =>
      assert forall k :: 0 <= k < |reordered| ==> reordered[k] in orig;
      var remap := seq(|reordered|, k requires 0 <= k < |reordered| => IndexOf(orig, reordered[k]));
      if exists k :: 0 <= k < |remap| && remap[k] >= |colors| then Err(ColorIndexOutOfRange)
      else
        assert forall k :: 0 <= k < |reordered| ==> IndexOf(orig, reordered[k]) == remap[k] < |colors|;
        Ok(seq(|remap|, k requires 0 <= k < |remap| => colors[remap[k]]))
  }

  /** The first place, in plotting order, whose ensemble size is not positive. */
  function FirstNonPositive(ens: seq<int>): (r: Option<nat>)
    ensures r.None? <==> forall k :: 0 <= k < |ens| ==> ens[k] > 0
    ensures r.Some? ==> r.value < |ens| && ens[r.value] <= 0
    ensures r.Some? ==> forall i :: 0 <= i < r.value ==> ens[i] > 0
  {
    if |ens| == 0 then None
    else if ens[0] <= 0 then Some(0)
    else
      match FirstNonPositive(ens[1..])
      case None => None
      case Some(k) => Some(k + 1)
  }

  /** The ensemble-size check: the first model with a non-positive size stops. */
  function CheckEnsMems(shorts: seq<string>, ens: seq<int>): (r: Option<Failure>)
    requires |shorts| == |ens|
    ensures r.None? <==> forall k :: 0 <= k < |ens| ==> ens[k] > 0
    ensures r.Some? ==>
              exists k :: 0 <= k < |ens| && r.value == NonPositiveEnsMems(shorts[k], ens[k])
                          && ens[k] <= 0 && forall i :: 0 <= i < k ==> ens[i] > 0
  {
    match FirstNonPositive(ens)
    case None => None
    case Some(k) => Some(NonPositiveEnsMems(shorts[k], ens[k]))
  }

  /** The database lists each long name and each short name once. */
  predicate WellFormed(ms: seq<ModelInfo>)
  {
    NoDup(Longs(ms)) && NoDup(Shorts(ms))
  }

  lemma IndexOfNoDup<T>(s: seq<T>, j: nat)
    requires NoDup(s) && j < |s|
    ensures IndexOf(s, s[j]) == j
  {
  }

  /** Going from a short name to its long name and back gives the short name. */
  lemma ShortLongShort(ms: seq<ModelInfo>, s: string)
    requires NoDup(Longs(ms)) && s in Shorts(ms)
    ensures LongOfShort(ms, s) in Longs(ms)
    ensures ShortOfLong(ms, LongOfShort(ms, s)) == s
  {
    var j := IndexOf(Shorts(ms), s);
    IndexOfNoDup(Longs(ms), j);
  }

  /** Going from a long name to its model's short name and back gives the long name. */
  lemma LongShortLong(ms: seq<ModelInfo>, l: string)
    requires NoDup(Shorts(ms)) && l in Longs(ms)
    ensures LongOfShort(ms, ShortOfLong(ms, l)) == l
  {
    var j := IndexOf(Longs(ms), l);
    IndexOfNoDup(Shorts(ms), j);
  }

  /** Mapping a list through a function that undoes itself on it gives the list. */
  lemma MapRoundTrip(sorted: seq<ModelInfo>, shorts: seq<string>)
    requires NoDup(Longs(sorted)) && forall m :: m in shorts ==> m in Shorts(sorted)
    ensures MapSeq(MapSeq(shorts, s => LongOfShort(sorted, s)), l => ShortOfLong(sorted, l)) == shorts
  {
    var back := MapSeq(MapSeq(shorts, s => LongOfShort(sorted, s)), l => ShortOfLong(sorted, l));
    forall k | 0 <= k < |shorts| ensures back[k] == shorts[k] {
      ShortLongShort(sorted, shorts[k]);
    }
  }

  /** The reordered short names are the requested ones, rearranged. */
  lemma ReorderPermutes(sorted: seq<ModelInfo>, shorts: seq<string>)
    requires NoDup(Longs(sorted)) && forall m :: m in shorts ==> m in Shorts(sorted)
    ensures multiset(ReorderedShorts(sorted, shorts)) == multiset(shorts)
  {
    var names := MapSeq(shorts, s => LongOfShort(sorted, s));
    MapMultiset(LongNamesToPlot(sorted, shorts), names, l => ShortOfLong(sorted, l));
    MapRoundTrip(sorted, shorts);
  }

  /** The i-th reordered short name belongs to the i-th sorted long name. */
  lemma ReorderFollowsLongNames(sorted: seq<ModelInfo>, shorts: seq<string>)
    requires WellFormed(sorted) && forall m :: m in shorts ==> m in Shorts(sorted)
    ensures forall k :: 0 <= k < |shorts| ==>
      LongOfShort(sorted, ReorderedShorts(sorted, shorts)[k]) == LongNamesToPlot(sorted, shorts)[k]
  {
    var names := MapSeq(shorts, s => LongOfShort(sorted, s));
    var sortedNames := LongNamesToPlot(sorted, shorts);
    forall k | 0 <= k < |shorts|
      ensures LongOfShort(sorted, ReorderedShorts(sorted, shorts)[k]) == sortedNames[k]
    {
      assert sortedNames[k] in multiset(names);
      var i :| 0 <= i < |names| && names[i] == sortedNames[k];
      ShortLongShort(sorted, shorts[i]);
      LongShortLong(sorted, sortedNames[k]);
    }
  }

  /** The database facts the reordering relies on carry over to the sorted database. */
  lemma SortedFacts(db: Database, shorts: seq<string>)
    requires WellFormed(db.models)
    requires forall m :: m in shorts ==> m in Shorts(db.models)
    ensures WellFormed(SortedModels(db.models))
    ensures forall m :: m in shorts ==> m in Shorts(SortedModels(db.models))
  {
    WellFormedSorted(db.models);
    forall m | m in shorts ensures m in Shorts(SortedModels(db.models)) {
      SortedShorts(db.models, m);
    }
  }

  /**
   * Reordering a list of known models rearranges it: the same short names,
   * now in the alphabetical order of their long names.
   */
  lemma ReorderIsPermutation(db: Database, shorts: seq<string>)
    requires WellFormed(db.models)
    requires forall m :: m in shorts ==> m in Shorts(db.models)
    ensures multiset(ReorderedShorts(SortedModels(db.models), shorts)) == multiset(shorts)
    ensures SortedBy(MapSeq(ReorderedShorts(SortedModels(db.models), shorts),
                            s => LongOfShort(SortedModels(db.models), s)), Identity)
  {
    var sorted := SortedModels(db.models);
    SortedFacts(db, shorts);
    ReorderPermutes(sorted, shorts);
    ReorderFollowsLongNames(sorted, shorts);
    assert MapSeq(ReorderedShorts(sorted, shorts), s => LongOfShort(sorted, s))
           == LongNamesToPlot(sorted, shorts);
  }

  /** Sorting keeps the long and short names distinct. */
  lemma WellFormedSorted(ms: seq<ModelInfo>)
    requires WellFormed(ms)
    ensures WellFormed(SortedModels(ms))
  {
    var sorted := SortedModels(ms);
    MapMultiset(sorted, ms, LongName);
    MapMultiset(sorted, ms, ShortName);
    NoDupOfMultiset(Longs(ms), Longs(sorted));
    NoDupOfMultiset(Shorts(ms), Shorts(sorted));
  }

  /** A list of (short name, colour) pairs. */
  function Pairs(a: seq<string>, b: seq<string>): seq<(string, string)>
    requires |a| <= |b|
  {
    seq(|a|, i requires 0 <= i < |a| => (a[i], b[i]))
  }

  /** The colour given at a short name's place in the original lists. */
  function ColorAt(orig: seq<string>, colors: seq<string>, s: string): string
  {
    if s in orig && IndexOf(orig, s) < |colors| then colors[IndexOf(orig, s)] else ""
  }

  /**
   * With a colour for every model, the reordering keeps each model with
   * the colour given for it on the command line: the (model, colour) pairs
   * after it are those before it, rearranged.
   */
  lemma ColorsFollowModels(db: Database, shorts: seq<string>, colors: seq<string>)
    requires WellFormed(db.models) && NoDup(shorts)
    requires forall m :: m in shorts ==> m in Shorts(db.models)
    requires |colors| >= |shorts|
    ensures var re := ReorderedShorts(SortedModels(db.models), shorts);
      var r := RemapColors(shorts, re, colors);
      r.Ok? && multiset(Pairs(re, r.value)) == multiset(Pairs(shorts, colors))
  {
    var sorted := SortedModels(db.models);
    var re := ReorderedShorts(sorted, shorts);
    ReorderedHaveColors(db, shorts, colors);
    SortedFacts(db, shorts);
    ReorderPermutes(sorted, shorts);
    var r := RemapColors(shorts, re, colors);
    assert Pairs(re, r.value) == Colored(re, shorts, colors);
    ColoredPermutes(re, shorts, colors);
    ColoredInPlace(shorts, colors);
  }

  /** Each name with the colour at its place in orig. */
  function Colored(names: seq<string>, orig: seq<string>, colors: seq<string>): (r: seq<(string, string)>)
    ensures |r| == |names| && forall i :: 0 <= i < |names| ==> r[i] == (names[i], ColorAt(orig, colors, names[i]))
  {
    MapSeq(names, s => (s, ColorAt(orig, colors, s)))
  }

  /** Rearranging the names rearranges their coloured pairs. */
  lemma ColoredPermutes(names: seq<string>, orig: seq<string>, colors: seq<string>)
    requires multiset(names) == multiset(orig)
    ensures multiset(Colored(names, orig, colors)) == multiset(Colored(orig, orig, colors))
  {
    MapMultiset(names, orig, s => (s, ColorAt(orig, colors, s)));
  }

  /** Without repeated names, each name's colour is the one beside it. */
  lemma ColoredInPlace(names: seq<string>, colors: seq<string>)
    requires NoDup(names) && |colors| >= |names|
    ensures Colored(names, names, colors) == Pairs(names, colors)
  {
    forall j | 0 <= j < |names| ensures ColorAt(names, colors, names[j]) == colors[j] {
      IndexOfNoDup(names, j);
    }
  }

  /** Every reordered model has a place in the original list, and a colour there. */
  lemma ReorderedHaveColors(db: Database, shorts: seq<string>, colors: seq<string>)
    requires WellFormed(db.models)
    requires forall m :: m in shorts ==> m in Shorts(db.models)
    requires |colors| >= |shorts|
    ensures var re := ReorderedShorts(SortedModels(db.models), shorts);
            forall k :: 0 <= k < |re| ==> re[k] in shorts && IndexOf(shorts, re[k]) < |colors|
  {
    var sorted := SortedModels(db.models);
    var re := ReorderedShorts(sorted, shorts);
    SortedFacts(db, shorts);
    ReorderPermutes(sorted, shorts);
    forall k | 0 <= k < |re| ensures re[k] in shorts && IndexOf(shorts, re[k]) < |colors| {
      assert re[k] in multiset(re);
    }
  }

  /**
   * With fewer colours than models, the model at the last original place
   * lands somewhere in the new order, and looking up its colour fails.
   */
  lemma TooFewColors(db: Database, shorts: seq<string>, colors: seq<string>)
    requires WellFormed(db.models) && NoDup(shorts)
    requires forall m :: m in shorts ==> m in Shorts(db.models)
    requires |colors| < |shorts|
    ensures RemapColors(shorts, ReorderedShorts(SortedModels(db.models), shorts), colors)
            == Err(ColorIndexOutOfRange)
  {
    var sorted := SortedModels(db.models);
    var re := ReorderedShorts(sorted, shorts);
    SortedFacts(db, shorts);
    ReorderPermutes(sorted, shorts);
    var n := |shorts| - 1;
    assert shorts[n] in multiset(re);
    var k :| 0 <= k < |re| && re[k] == shorts[n];
    IndexOfNoDup(shorts, n);
    forall v | v in re ensures v in shorts {
      assert v in multiset(re);
    }
  }

  /** Every sorted long name to plot is a long name of the database. */
  lemma NameToPlotKnown(sorted: seq<ModelInfo>, shorts: seq<string>, k: nat)
    requires NoDup(Longs(sorted)) && forall m :: m in shorts ==> m in Shorts(sorted)
    requires k < |shorts|
    ensures LongNamesToPlot(sorted, shorts)[k] in Longs(sorted)
  {
    var l := LongNamesToPlot(sorted, shorts)[k];
    assert l in multiset(MapSeq(shorts, s => LongOfShort(sorted, s)));
    var i :| 0 <= i < |shorts| && LongOfShort(sorted, shorts[i]) == l;
    ShortLongShort(sorted, shorts[i]);
  }

  /** The model a long name picks from the sorted database is one of the database's. */
  lemma ModelOfLongInDb(sorted: seq<ModelInfo>, models: seq<ModelInfo>, l: string)
    requires multiset(sorted) == multiset(models) && l in Longs(sorted)
    ensures exists j :: 0 <= j < |models| && models[j].shortName == ShortOfLong(sorted, l)
                        && models[j].numEnsMems == EnsOfLong(sorted, l)
  {
    var model := ModelOfLong(sorted, l);
    assert model in multiset(models);
    var j :| 0 <= j < |models| && models[j] == model;
  }

  /**
   * The ensemble sizes after the reordering are those the database gives
   * for the models in their new order.
   */
  lemma EnsMemsFollowModels(db: Database, shorts: seq<string>)
    requires WellFormed(db.models)
    requires forall m :: m in shorts ==> m in Shorts(db.models)
    ensures var re := ReorderedShorts(SortedModels(db.models), shorts);
      var ens := ReorderedEnsMems(SortedModels(db.models), shorts);
      forall k :: 0 <= k < |shorts| ==>
        exists j :: 0 <= j < |db.models| && db.models[j].shortName == re[k]
                    && db.models[j].numEnsMems == ens[k]
  {
    var sorted := SortedModels(db.models);
    var names := LongNamesToPlot(sorted, shorts);
    SortedFacts(db, shorts);
    forall k | 0 <= k < |shorts|
      ensures exists j :: 0 <= j < |db.models|
                          && db.models[j].shortName == ReorderedShorts(sorted, shorts)[k]
                          && db.models[j].numEnsMems == ReorderedEnsMems(sorted, shorts)[k]
    {
      NameToPlotKnown(sorted, shorts, k);
      ModelOfLongInDb(sorted, db.models, names[k]);
    }
  }
}
