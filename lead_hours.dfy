/**
 * set_leadhrs: the lead hours of a forecast for which a file is present.
 * The candidates are a Python range from the minimum to the maximum lead
 * hour; unless the file check is skipped, each candidate's file is looked
 * up and the run fails when more files are missing than allowed.
 *
 * The file behind a lead hour (METplus template substitution of the
 * initialisation and valid times, lead seconds and time lag, joined to the
 * base directory, then os.path.isfile) is the oracle `isFile`, and
 * whether datetime.strptime accepts the initialisation date in the format
 * its length selects is the oracle `parses`.
 */
module LeadHours {

  import opened Wrappers
  import opened PySeq

  /** What stops a run, named after the Python exception. */
  datatype LeadError =
    | RangeStepZero            // ValueError from range() with a zero step
    | UndefinedName(name: string) // NameError
    | InvalidDateInit          // ValueError: length not 10, 12 or 14, or strptime rejects it
    | TooManyMissing(numMissing: nat, numMissingMax: int) // Exception
    | DateInitCheckFails       // the failing raise in the command line's consistency check

  datatype LeadArgs = LeadArgs(
    dateInit: string,
    lhrMin: int,
    lhrMax: int,
    lhrIntvl: int,
    numMissingFilesMax: int,
    skipCheckFiles: bool,
    verbose: bool)

  // ------------------------------------------------------------- range()

  /** range(start, stop, step) with a positive step. */
  function RangeUp(start: int, stop: int, step: int): (r: seq<int>)
    requires step > 0
    ensures forall k :: 0 <= k < |r| ==> r[k] == start + k * step && r[k] < stop
    ensures start + |r| * step >= stop
    decreases stop - start
  {
    if start >= stop then []
    else
      var rest := RangeUp(start + step, stop, step);
      assert forall k :: 0 <= k < |rest| ==> start + step + k * step == start + (k + 1) * step;
      assert start + step + |rest| * step == start + (|rest| + 1) * step;
      [start] + rest
  }

  /** range(start, stop, step) with a negative step. */
  function RangeDown(start: int, stop: int, step: int): (r: seq<int>)
    requires step < 0
    ensures forall k :: 0 <= k < |r| ==> r[k] == start + k * step && r[k] > stop
    ensures start + |r| * step <= stop
    decreases start - stop
  {
    if start <= stop then []
    else
      var rest := RangeDown(start + step, stop, step);
      assert forall k :: 0 <= k < |rest| ==> start + step + k * step == start + (k + 1) * step;
      assert start + step + |rest| * step == start + (|rest| + 1) * step;
      [start] + rest
  }

  /** list(range(start, stop, step)): the arithmetic progression from start
      up to (or down to) stop, excluded; a zero step is a ValueError. */
  function PyRange(start: int, stop: int, step: int): (r: Result<seq<int>, LeadError>)
    ensures r.Err? <==> step == 0
    ensures r.Err? ==> r.error == RangeStepZero
    ensures r.Ok? ==> forall k :: 0 <= k < |r.value| ==> r.value[k] == start + k * step
  {
    if step > 0 then Ok(RangeUp(start, stop, step))
    else if step < 0 then Ok(RangeDown(start, stop, step))
    else Err(RangeStepZero)
  }

  /** A positive step stops at the first value reaching stop: every
      progression value below stop is in the range, at its own index. */
  lemma RangeUpHas(start: int, stop: int, step: int, k: nat)
    requires step > 0 && start + k * step < stop
    ensures k < |RangeUp(start, stop, step)| && RangeUp(start, stop, step)[k] == start + k * step
  {
    var r := RangeUp(start, stop, step);
    if k >= |r| {
      assert false;
    }
  }

  /** Every value of a range with a positive step is below stop. */
  lemma RangeUpBelow(start: int, stop: int, step: int, k: nat)
    requires step > 0
    ensures k < |RangeUp(start, stop, step)| ==> start + k * step < stop
  {
    var r := RangeUp(start, stop, step);
    if k < |r| {
      assert r[k] == start + k * step;
    }
  }

  /** The candidates: list(range(lhr_min, lhr_max + 1, lhr_intvl)). */
  function Candidates(args: LeadArgs): Result<seq<int>, LeadError>
  {
    PyRange(args.lhrMin, args.lhrMax + 1, args.lhrIntvl)
  }

  /** With a positive interval the k-th candidate is the minimum plus k
      intervals, and every such hour up to the maximum is a candidate. */
  lemma CandidateHours(args: LeadArgs, k: nat)
    requires args.lhrIntvl > 0
    ensures Candidates(args).Ok?
    ensures k < |Candidates(args).value| <==> args.lhrMin + k * args.lhrIntvl <= args.lhrMax
    ensures k < |Candidates(args).value| ==> Candidates(args).value[k] == args.lhrMin + k * args.lhrIntvl
  {
    var r := RangeUp(args.lhrMin, args.lhrMax + 1, args.lhrIntvl);
    assert Candidates(args).value == r;
    var h := args.lhrMin + k * args.lhrIntvl;
    if h <= args.lhrMax {
      RangeUpHas(args.lhrMin, args.lhrMax + 1, args.lhrIntvl, k);
    } else {
      RangeUpBelow(args.lhrMin, args.lhrMax + 1, args.lhrIntvl, k);
    }
  }

  // --------------------------------------------------------- set_leadhrs

  /** The lengths strptime is given a format for. */
  predicate DateInitLengthOk(dateInit: string)
  {
    |dateInit| == 10 || |dateInit| == 12 || |dateInit| == 14
  }

  function MissingHours(lhrs: seq<int>, isFile: int -> bool): seq<int>
  {
    Filter(lhrs, h => !isFile(h))
  }

  /** set_leadhrs, step by step: the range, the verbose print of an
      undefined name, the skip, the date check, the file check and the cap
      on missing files. */
  function LeadHours(args: LeadArgs, parses: string -> bool, isFile: int -> bool): (r: Result<seq<int>, LeadError>)
    ensures args.lhrIntvl == 0 ==> r == Err(RangeStepZero)
    ensures args.lhrIntvl != 0 && args.verbose ==> r == Err(UndefinedName("lhrs_array"))
    ensures r.Ok? ==> forall h :: h in r.value ==> h in Candidates(args).value
  {
    match Candidates(args)
    case Err(e) => Err(e)
    case Ok(lhrsList) =>
      if args.verbose then Err(UndefinedName("lhrs_array"))
      else if args.skipCheckFiles then Ok(lhrsList)
      else if !DateInitLengthOk(args.dateInit) || !parses(args.dateInit) then Err(InvalidDateInit)
      else
        var finalList := Filter(lhrsList, isFile);
        var numMissingFiles := |MissingHours(lhrsList, isFile)|;
        if numMissingFiles > args.numMissingFilesMax then Err(TooManyMissing(numMissingFiles, args.numMissingFilesMax))
        else Ok(finalList)
  }

  /** The loop over the candidates: the hours whose file is present, in
      order, and the number of the others. */
  method CheckFiles(lhrsList: seq<int>, isFile: int -> bool) returns (finalList: seq<int>, numMissingFiles: nat)
    ensures finalList == Filter(lhrsList, isFile)
    ensures numMissingFiles == |MissingHours(lhrsList, isFile)|
  {
    finalList := [];
    numMissingFiles := 0;
    for i := 0 to |lhrsList|
      invariant finalList == Filter(lhrsList[..i], isFile)
      invariant numMissingFiles == i - |finalList|
    {
      var lhr := lhrsList[i];
      FilterPrefix(lhrsList, i, isFile);
      if isFile(lhr) {
        finalList := finalList + [lhr];
      } else {
        numMissingFiles := numMissingFiles + 1;
      }
    }
    assert lhrsList[..|lhrsList|] == lhrsList;
    KeptPlusMissing(lhrsList, isFile);
  }

  /** set_leadhrs: the loop over the candidates keeps the hours whose file
      is present and counts the others. */
  method SetLeadhrs(args: LeadArgs, parses: string -> bool, isFile: int -> bool)
    returns (r: Result<seq<int>, LeadError>)
    ensures r == LeadHours(args, parses, isFile)
  {
    var range := PyRange(args.lhrMin, args.lhrMax + 1, args.lhrIntvl);
    if range.Err? {
      return Err(range.error);
    }
    var lhrsList := range.value;
    if args.verbose {
      return Err(UndefinedName("lhrs_array"));
    }
    if args.skipCheckFiles {
      return Ok(lhrsList);
    }
    if !DateInitLengthOk(args.dateInit) || !parses(args.dateInit) {
      return Err(InvalidDateInit);
    }
    var finalList, numMissingFiles := CheckFiles(lhrsList, isFile);
    if numMissingFiles > args.numMissingFilesMax {
      return Err(TooManyMissing(numMissingFiles, args.numMissingFilesMax));
    }
    return Ok(finalList);
  }

  // ---------------------------------------------------------- properties

  /** Every candidate is kept or missing, never both. */
  lemma {:induction false} KeptPlusMissing(lhrs: seq<int>, isFile: int -> bool)
    ensures |Filter(lhrs, isFile)| + |MissingHours(lhrs, isFile)| == |lhrs|
  {
    if |lhrs| > 0 {
      KeptPlusMissing(lhrs[1..], isFile);
    }
  }

  /** Skipping the check returns the whole range whatever the files. */
  lemma SkipReturnsCandidates(args: LeadArgs, parses: string -> bool, isFile: int -> bool)
    requires args.lhrIntvl != 0 && !args.verbose && args.skipCheckFiles
    ensures LeadHours(args, parses, isFile) == Candidates(args)
  {
  }

  /** An initialisation date of another length than 10, 12 or 14 fails the
      check, whatever the files. */
  lemma BadDateInitRejected(args: LeadArgs, parses: string -> bool, isFile: int -> bool)
    requires args.lhrIntvl != 0 && !args.verbose && !args.skipCheckFiles
    requires !DateInitLengthOk(args.dateInit)
    ensures LeadHours(args, parses, isFile) == Err(InvalidDateInit)
  {
  }

  /** Once the files are checked, the run succeeds exactly when at most the
      allowed number of candidates miss their file (equality is allowed),
      and then it returns the candidates with a file, in range order. */
  lemma CheckedHours(args: LeadArgs, parses: string -> bool, isFile: int -> bool)
    requires args.lhrIntvl != 0 && !args.verbose && !args.skipCheckFiles
    requires DateInitLengthOk(args.dateInit) && parses(args.dateInit)
    ensures var lhrs := Candidates(args).value;
            var missing := |MissingHours(lhrs, isFile)|;
            LeadHours(args, parses, isFile)
              == if missing > args.numMissingFilesMax then Err(TooManyMissing(missing, args.numMissingFilesMax))
                 else Ok(Filter(lhrs, isFile))
  {
    KeptPlusMissing(Candidates(args).value, isFile);
  }

  /** A returned hour after the file check is a candidate whose file is
      present, and every such candidate is returned. */
  lemma KeptHoursHaveFiles(args: LeadArgs, parses: string -> bool, isFile: int -> bool, h: int)
    requires !args.skipCheckFiles
    requires LeadHours(args, parses, isFile).Ok?
    ensures h in LeadHours(args, parses, isFile).value <==> h in Candidates(args).value && isFile(h)
  {
  }

  /** The command line: without --skip_check_files an initialisation date
      must be given. The script's raise passes `argparse.ArgumentError` a
      single argument, so the run stops with a TypeError while the exception
      is being built; DateInitCheckFails stands for that stop. */
  function CheckArgs(args: LeadArgs): (r: Option<LeadError>)
    ensures r.Some? <==> !args.skipCheckFiles && |args.dateInit| == 0
  {
    if !args.skipCheckFiles && args.dateInit == "" then Some(DateInitCheckFails) else None
  }
}
