/**
 * separate_fcst_obs_info: splits a verification configuration in which
 * every field name, level and threshold may carry a forecast value and an
 * observation value separated by '|' into a forecast configuration and an
 * observation configuration of the same shape.  The configuration is a
 * dict of field groups; each group holds a dict of fields, each field a
 * dict of levels and each level a list of thresholds.  In the result each
 * group holds a list of single-key dicts, one per field, so that two fields
 * with the same name survive.
 */
module FcstObsSplit {

  import opened Wrappers
  import opened PyStr
  import opened PySeq
  import PlotParams

  /** The character between the forecast value and the observation value. */
  const SepChar: char := '|'

  datatype LevelThreshes = LevelThreshes(level: string, threshes: seq<string>)
  datatype FieldLevels = FieldLevels(field: string, levels: seq<LevelThreshes>)
  datatype FieldGroup = FieldGroup(group: string, fields: seq<FieldLevels>)

  /** The combined result {'fcst': ..., 'obs': ...}. */
  datatype VxConfig = VxConfig(fcst: seq<FieldGroup>, obs: seq<FieldGroup>)

  datatype Side = Fcst | Obs

  function LevelKey(l: LevelThreshes): string { l.level }

  function GroupKey(g: FieldGroup): string { g.group }

  // ------------------------------------------------------------ one token

  /** At most one separator: the tokens the split accepts. */
  predicate Splittable(tok: string)
  {
    CountChar(tok, SepChar) <= 1
  }

  /** The forecast and observation values of one field name, level or
      threshold: the stripped text for both when it has no separator, the
      stripped parts around it when it has one; a second separator reaches
      the undefined name error_msg. */
  function SplitToken(tok: string): (r: Result<(string, string), PlotParams.Failure>)
    ensures r.Ok? <==> Splittable(tok)
    ensures r.Err? ==> r.error == PlotParams.UndefinedName("error_msg")
  {
    var tmp := Split(tok, SepChar);
    var numSepChars := |tmp| - 1;
    var fcst := Strip(tmp[0]);
    if numSepChars == 0 then Ok((fcst, fcst))
    else if numSepChars == 1 then Ok((fcst, Strip(tmp[1])))
    else Err(PlotParams.UndefinedName("error_msg"))
  }

  /** A token without a separator gives the stripped token on both sides. */
  lemma TokenWithoutSep(tok: string)
    requires SepChar !in tok
    ensures SplitToken(tok) == Ok((Strip(tok), Strip(tok)))
  {
    SplitNoSep(tok, SepChar);
  }

  /** A token with one separator gives its stripped left part to the
      forecast and its stripped right part to the observation. */
  lemma TokenWithOneSep(fcst: string, obs: string)
    requires SepChar !in fcst && SepChar !in obs
    ensures SplitToken(fcst + [SepChar] + obs) == Ok((Strip(fcst), Strip(obs)))
  {
    SplitOneSep(fcst, obs, SepChar);
  }

  /** The value a token gives to one side (none for a token that stops
      the run, which is never looked at). */
  function Pick(tok: string, side: Side): string
  {
    match SplitToken(tok)
    case Ok(p) => if side == Fcst then p.0 else p.1
    case Err(_) => ""
  }

  lemma PickOfSplit(tok: string)
    requires Splittable(tok)
    ensures SplitToken(tok) == Ok((Pick(tok, Fcst), Pick(tok, Obs)))
  {
  }

  // ---------------------------------------------------- the whole config

  predicate ThreshesSplittable(ths: seq<string>)
  {
    forall i :: 0 <= i < |ths| ==> Splittable(ths[i])
  }

  predicate LevelSplittable(l: LevelThreshes)
  {
    Splittable(l.level) && ThreshesSplittable(l.threshes)
  }

  predicate LevelsSplittable(ls: seq<LevelThreshes>)
  {
    forall i :: 0 <= i < |ls| ==> LevelSplittable(ls[i])
  }

  predicate FieldSplittable(f: FieldLevels)
  {
    Splittable(f.field) && LevelsSplittable(f.levels)
  }

  predicate FieldsSplittable(fs: seq<FieldLevels>)
  {
    forall i :: 0 <= i < |fs| ==> FieldSplittable(fs[i])
  }

  predicate GroupSplittable(g: FieldGroup)
  {
    FieldsSplittable(g.fields)
  }

  predicate ConfigSplittable(cfg: seq<FieldGroup>)
  {
    forall i :: 0 <= i < |cfg| ==> GroupSplittable(cfg[i])
  }

  /** One side of a level's threshold list, entry by entry. */
  function SideThreshes(ths: seq<string>, side: Side): (r: seq<string>)
    ensures |r| == |ths|
  {
    MapSeq(ths, t => Pick(t, side))
  }

  function SideLevel(l: LevelThreshes, side: Side): LevelThreshes
  {
    LevelThreshes(Pick(l.level, side), SideThreshes(l.threshes, side))
  }

  /** One side of a field's levels: each level assigned in turn into a
      dict, so a later level with the same side name replaces the earlier
      one's thresholds in the earlier one's place. */
  function SideLevels(ls: seq<LevelThreshes>, side: Side): seq<LevelThreshes>
  {
    Assigned(MapSeq(ls, l => SideLevel(l, side)), LevelKey)
  }

  function SideField(f: FieldLevels, side: Side): FieldLevels
  {
    FieldLevels(Pick(f.field, side), SideLevels(f.levels, side))
  }

  /** One side of a group's fields: a list, one entry per field. */
  function SideFields(fs: seq<FieldLevels>, side: Side): (r: seq<FieldLevels>)
    ensures |r| == |fs|
  {
    MapSeq(fs, f => SideField(f, side))
  }

  function SideGroup(g: FieldGroup, side: Side): FieldGroup
  {
    FieldGroup(g.group, SideFields(g.fields, side))
  }

  /** One side of the configuration: each group assigned in turn. */
  function SideGroups(cfg: seq<FieldGroup>, side: Side): seq<FieldGroup>
  {
    Assigned(MapSeq(cfg, g => SideGroup(g, side)), GroupKey)
  }

  lemma SideThreshesTakeOneMore(ths: seq<string>, i: nat, side: Side)
    requires i < |ths|
    ensures SideThreshes(ths[..i + 1], side) == SideThreshes(ths[..i], side) + [Pick(ths[i], side)]
  {
    MapSeqTakeOneMore(ths, i, t => Pick(t, side));
  }

  lemma SideLevelsTakeOneMore(ls: seq<LevelThreshes>, i: nat, side: Side)
    requires i < |ls|
    ensures SideLevels(ls[..i + 1], side) == DictSet(SideLevels(ls[..i], side), LevelKey, SideLevel(ls[i], side))
  {
    MapSeqTakeOneMore(ls, i, l => SideLevel(l, side));
    AssignedSnoc(MapSeq(ls[..i], l => SideLevel(l, side)), LevelKey, SideLevel(ls[i], side));
  }

  lemma SideGroupsTakeOneMore(cfg: seq<FieldGroup>, i: nat, side: Side)
    requires i < |cfg|
    ensures SideGroups(cfg[..i + 1], side) == DictSet(SideGroups(cfg[..i], side), GroupKey, SideGroup(cfg[i], side))
  {
    MapSeqTakeOneMore(cfg, i, g => SideGroup(g, side));
    AssignedSnoc(MapSeq(cfg[..i], g => SideGroup(g, side)), GroupKey, SideGroup(cfg[i], side));
  }

  lemma SideFieldsTakeOneMore(fs: seq<FieldLevels>, i: nat, side: Side)
    requires i < |fs|
    ensures SideFields(fs[..i + 1], side) == SideFields(fs[..i], side) + [SideField(fs[i], side)]
  {
    MapSeqTakeOneMore(fs, i, f => SideField(f, side));
  }

  lemma ThreshesSplittableTakeOneMore(ths: seq<string>, i: nat)
    requires i < |ths| && ThreshesSplittable(ths[..i]) && Splittable(ths[i])
    ensures ThreshesSplittable(ths[..i + 1])
  {
    assert ths[..i + 1] == ths[..i] + [ths[i]];
  }

  lemma LevelsSplittableTakeOneMore(ls: seq<LevelThreshes>, i: nat)
    requires i < |ls| && LevelsSplittable(ls[..i]) && LevelSplittable(ls[i])
    ensures LevelsSplittable(ls[..i + 1])
  {
    assert ls[..i + 1] == ls[..i] + [ls[i]];
  }

  lemma FieldsSplittableTakeOneMore(fs: seq<FieldLevels>, i: nat)
    requires i < |fs| && FieldsSplittable(fs[..i]) && FieldSplittable(fs[i])
    ensures FieldsSplittable(fs[..i + 1])
  {
    assert fs[..i + 1] == fs[..i] + [fs[i]];
  }

  lemma ConfigSplittableTakeOneMore(cfg: seq<FieldGroup>, i: nat)
    requires i < |cfg| && ConfigSplittable(cfg[..i]) && GroupSplittable(cfg[i])
    ensures ConfigSplittable(cfg[..i + 1])
  {
    assert cfg[..i + 1] == cfg[..i] + [cfg[i]];
  }

  // ---------------------------------------------------------- the loops

  /** The loop over the thresholds of one level. */
  method SplitThreshes(threshesBoth: seq<string>)
    returns (r: Result<(seq<string>, seq<string>), PlotParams.Failure>)
    ensures r.Ok? <==> ThreshesSplittable(threshesBoth)
    ensures r.Err? ==> r.error == PlotParams.UndefinedName("error_msg")
    ensures r.Ok? ==> r.value == (SideThreshes(threshesBoth, Fcst), SideThreshes(threshesBoth, Obs))
  {
    var threshesFcst: seq<string> := [];
    var threshesObs: seq<string> := [];
    for i := 0 to |threshesBoth|
      invariant ThreshesSplittable(threshesBoth[..i])
      invariant threshesFcst == SideThreshes(threshesBoth[..i], Fcst)
      invariant threshesObs == SideThreshes(threshesBoth[..i], Obs)
    {
      var split := SplitToken(threshesBoth[i]);
      if split.Err? {
        return Err(split.error);
      }
      ThreshesSplittableTakeOneMore(threshesBoth, i);
      PickOfSplit(threshesBoth[i]);
      SideThreshesTakeOneMore(threshesBoth, i, Fcst);
      SideThreshesTakeOneMore(threshesBoth, i, Obs);
      threshesFcst := threshesFcst + [split.value.0];
      threshesObs := threshesObs + [split.value.1];
    }
    assert threshesBoth[..|threshesBoth|] == threshesBoth;
    return Ok((threshesFcst, threshesObs));
  }

  /** One level of a field: its name split, then its thresholds. */
  method SplitLevel(l: LevelThreshes) returns (r: Result<(LevelThreshes, LevelThreshes), PlotParams.Failure>)
    ensures r.Ok? <==> LevelSplittable(l)
    ensures r.Err? ==> r.error == PlotParams.UndefinedName("error_msg")
    ensures r.Ok? ==> r.value == (SideLevel(l, Fcst), SideLevel(l, Obs))
  {
    var split := SplitToken(l.level);
    if split.Err? {
      return Err(split.error);
    }
    var threshes := SplitThreshes(l.threshes);
    if threshes.Err? {
      return Err(threshes.error);
    }
    PickOfSplit(l.level);
    return Ok((LevelThreshes(split.value.0, threshes.value.0), LevelThreshes(split.value.1, threshes.value.1)));
  }

  /** The loop over the levels of one field. */
  method SplitLevels(levelsBoth: seq<LevelThreshes>)
    returns (r: Result<(seq<LevelThreshes>, seq<LevelThreshes>), PlotParams.Failure>)
    ensures r.Ok? <==> LevelsSplittable(levelsBoth)
    ensures r.Err? ==> r.error == PlotParams.UndefinedName("error_msg")
    ensures r.Ok? ==> r.value == (SideLevels(levelsBoth, Fcst), SideLevels(levelsBoth, Obs))
  {
    var levelsFcst: seq<LevelThreshes> := [];
    var levelsObs: seq<LevelThreshes> := [];
    for i := 0 to |levelsBoth|
      invariant LevelsSplittable(levelsBoth[..i])
      invariant levelsFcst == SideLevels(levelsBoth[..i], Fcst)
      invariant levelsObs == SideLevels(levelsBoth[..i], Obs)
    {
      var level := SplitLevel(levelsBoth[i]);
      if level.Err? {
        return Err(level.error);
      }
      LevelsSplittableTakeOneMore(levelsBoth, i);
      SideLevelsTakeOneMore(levelsBoth, i, Fcst);
      SideLevelsTakeOneMore(levelsBoth, i, Obs);
      levelsFcst := DictSet(levelsFcst, LevelKey, level.value.0);
      levelsObs := DictSet(levelsObs, LevelKey, level.value.1);
    }
    assert levelsBoth[..|levelsBoth|] == levelsBoth;
    return Ok((levelsFcst, levelsObs));
  }

  /** One field of a group: its name split, then its levels. */
  method SplitField(f: FieldLevels) returns (r: Result<(FieldLevels, FieldLevels), PlotParams.Failure>)
    ensures r.Ok? <==> FieldSplittable(f)
    ensures r.Err? ==> r.error == PlotParams.UndefinedName("error_msg")
    ensures r.Ok? ==> r.value == (SideField(f, Fcst), SideField(f, Obs))
  {
    var split := SplitToken(f.field);
    if split.Err? {
      return Err(split.error);
    }
    var levels := SplitLevels(f.levels);
    if levels.Err? {
      return Err(levels.error);
    }
    PickOfSplit(f.field);
    return Ok((FieldLevels(split.value.0, levels.value.0), FieldLevels(split.value.1, levels.value.1)));
  }

  /** The loop over the fields of one group. */
  method SplitFields(fieldsBoth: seq<FieldLevels>)
    returns (r: Result<(seq<FieldLevels>, seq<FieldLevels>), PlotParams.Failure>)
    ensures r.Ok? <==> FieldsSplittable(fieldsBoth)
    ensures r.Err? ==> r.error == PlotParams.UndefinedName("error_msg")
    ensures r.Ok? ==> r.value == (SideFields(fieldsBoth, Fcst), SideFields(fieldsBoth, Obs))
  {
    var fieldsFcst: seq<FieldLevels> := [];
    var fieldsObs: seq<FieldLevels> := [];
    for i := 0 to |fieldsBoth|
      invariant FieldsSplittable(fieldsBoth[..i])
      invariant fieldsFcst == SideFields(fieldsBoth[..i], Fcst)
      invariant fieldsObs == SideFields(fieldsBoth[..i], Obs)
    {
      var field := SplitField(fieldsBoth[i]);
      if field.Err? {
        return Err(field.error);
      }
      FieldsSplittableTakeOneMore(fieldsBoth, i);
      SideFieldsTakeOneMore(fieldsBoth, i, Fcst);
      SideFieldsTakeOneMore(fieldsBoth, i, Obs);
      fieldsFcst := fieldsFcst + [field.value.0];
      fieldsObs := fieldsObs + [field.value.1];
    }
    assert fieldsBoth[..|fieldsBoth|] == fieldsBoth;
    return Ok((fieldsFcst, fieldsObs));
  }

  /** separate_fcst_obs_info on the loaded configuration: both sides, or the
      NameError of a token with more than one separator. */
  method SeparateFcstObsInfo(cfg: seq<FieldGroup>) returns (r: Result<VxConfig, PlotParams.Failure>)
    ensures r.Ok? <==> ConfigSplittable(cfg)
    ensures r.Err? ==> r.error == PlotParams.UndefinedName("error_msg")
    ensures r.Ok? ==> r.value == VxConfig(SideGroups(cfg, Fcst), SideGroups(cfg, Obs))
  {
    var fgsFcst: seq<FieldGroup> := [];
    var fgsObs: seq<FieldGroup> := [];
    for i := 0 to |cfg|
      invariant ConfigSplittable(cfg[..i])
      invariant fgsFcst == SideGroups(cfg[..i], Fcst)
      invariant fgsObs == SideGroups(cfg[..i], Obs)
    {
      var g := cfg[i];
      var fields := SplitFields(g.fields);
      if fields.Err? {
        assert !GroupSplittable(cfg[i]);
        return Err(fields.error);
      }
      ConfigSplittableTakeOneMore(cfg, i);
      assert FieldGroup(g.group, fields.value.0) == SideGroup(g, Fcst);
      assert FieldGroup(g.group, fields.value.1) == SideGroup(g, Obs);
      SideGroupsTakeOneMore(cfg, i, Fcst);
      SideGroupsTakeOneMore(cfg, i, Obs);
      fgsFcst := DictSet(fgsFcst, GroupKey, FieldGroup(g.group, fields.value.0));
      fgsObs := DictSet(fgsObs, GroupKey, FieldGroup(g.group, fields.value.1));
    }
    assert cfg[..|cfg|] == cfg;
    return Ok(VxConfig(fgsFcst, fgsObs));
  }

  // ---------------------------------------------------------- properties

  /** Each threshold of a level gives the entry at the same place of both
      lists, so the two lists keep the input's length and order. */
  lemma ThreshesPaired(ths: seq<string>, i: nat)
    requires i < |ths| && Splittable(ths[i])
    ensures SplitToken(ths[i]) == Ok((SideThreshes(ths, Fcst)[i], SideThreshes(ths, Obs)[i]))
  {
  }

  /** A level's side names are distinct keys, and the entry for a name
      holds the thresholds of the last input level with that name. */
  lemma LevelsLastWins(ls: seq<LevelThreshes>, side: Side)
    ensures NoDup(KeysOf(SideLevels(ls, side), LevelKey))
    ensures forall e :: e in SideLevels(ls, side) <==>
              exists i :: 0 <= i < |ls| && e == SideLevel(ls[i], side)
                          && forall j :: i < j < |ls| ==> Pick(ls[j].level, side) != e.level
  {
    var es := MapSeq(ls, l => SideLevel(l, side));
    AssignedLastWins(es, LevelKey);
    forall i | 0 <= i < |ls|
      ensures LastOfKey(es, LevelKey, i) <==> forall j :: i < j < |ls| ==> Pick(ls[j].level, side) != es[i].level
    {
    }
  }

  /** Every field becomes one entry of the list, in order, so fields whose
      side names coincide are all kept. */
  lemma DuplicateFieldsKept(fs: seq<FieldLevels>, side: Side, i: nat, j: nat)
    requires i < j < |fs|
    requires Pick(fs[i].field, side) == Pick(fs[j].field, side)
    ensures SideFields(fs, side)[i].field == SideFields(fs, side)[j].field == Pick(fs[i].field, side)
    ensures SideFields(fs, side)[i].levels == SideLevels(fs[i].levels, side)
    ensures SideFields(fs, side)[j].levels == SideLevels(fs[j].levels, side)
  {
  }

  /** Assigning the groups of either side assigns the input's group
      names, so both outputs have the same groups in the same order. */
  lemma GroupKeysShared(cfg: seq<FieldGroup>)
    ensures KeysOf(SideGroups(cfg, Fcst), GroupKey) == KeysOf(SideGroups(cfg, Obs), GroupKey)
  {
    var fcst := MapSeq(cfg, g => SideGroup(g, Fcst));
    var obs := MapSeq(cfg, g => SideGroup(g, Obs));
    SideGroupKeys(cfg, Fcst);
    SideGroupKeys(cfg, Obs);
    AssignedKeys(fcst, obs, GroupKey);
  }

  /** With distinct group names (as the YAML mapping the configuration is
      loaded from guarantees) each side holds every group in the input
      order, split. */
  lemma DistinctGroupsKept(cfg: seq<FieldGroup>, side: Side)
    requires NoDup(KeysOf(cfg, GroupKey))
    ensures SideGroups(cfg, side) == MapSeq(cfg, g => SideGroup(g, side))
  {
    var es := MapSeq(cfg, g => SideGroup(g, side));
    SideGroupKeys(cfg, side);
    AssignedDistinct(es, GroupKey);
  }

  /** Splitting a group keeps its name. */
  lemma SideGroupKeys(cfg: seq<FieldGroup>, side: Side)
    ensures KeysOf(MapSeq(cfg, g => SideGroup(g, side)), GroupKey) == KeysOf(cfg, GroupKey)
  {
    var es := MapSeq(cfg, g => SideGroup(g, side));
    forall i | 0 <= i < |cfg| ensures KeysOf(es, GroupKey)[i] == KeysOf(cfg, GroupKey)[i] {
      assert es[i] == SideGroup(cfg[i], side);
      assert KeysOf(es, GroupKey)[i] == GroupKey(es[i]);
      assert KeysOf(cfg, GroupKey)[i] == GroupKey(cfg[i]);
    }
  }
}
