/**
 * run_WE2E_tests: the checks the end-to-end test driver makes before it
 * generates any experiment.  The run environment must be nco or community;
 * the user's test names are resolved to config files under test_configs
 * (whose base names must be unique), comments and blank lines skipped,
 * symlinked duplicates and repeated tests dropped; and the
 * task_get_extrn_ics / task_get_extrn_lbcs section of each test config is
 * pointed at staged input data from the machine file.
 *
 * The recursive glob for config*.yaml files under test_configs is the
 * parameter `testfiles`;
 * os.path.abspath, os.path.islink, os.path.realpath and os.path.isdir are
 * the oracles `abspath`, `isLink`, `realpath` and `isDir`.
 */
module WE2ETests {

  import opened Wrappers
  import opened PyStr
  import opened PySeq

  /** What stops the driver, named after the Python exception and the
      value it reports. */
  datatype We2eError =
    | InvalidRunEnvir(runEnvir: string)     // KeyError
    | DuplicateTestFile(baseName: string)   // Exception listing the duplicates
    | TestNotFound(test: string)            // Exception
    | InvalidBcsMode(icsOrLbcs: string)     // ValueError
    | KeyMissing(key: string)               // KeyError
    | NotAMapping                           // AttributeError from .get on a non-dict
    | BadOperand                            // TypeError from `in` or item assignment
    | NotADirectory(key: string)            // FileNotFoundError

  // ------------------------------------------------------------ run_envir

  /** The run environment check: an empty or absent setting passes, any
      other value must be nco or community. */
  function RunEnvirCheck(runEnvir: Option<string>): (r: Option<We2eError>)
    ensures r.None? <==> runEnvir.None? || runEnvir.value in {"", "nco", "community"}
    ensures r.Some? ==> r.value == InvalidRunEnvir(runEnvir.value)
  {
    match runEnvir
    case None => None
    case Some(s) => if s != "" && s != "nco" && s != "community" then Some(InvalidRunEnvir(s)) else None
  }

  // ----------------------------------------------------------- check_test

  /** The config file name a test name stands for. */
  function ConfigName(test: string): string
  {
    "config." + Strip(test) + ".yaml"
  }

  /** A glob hit stands for a test when it contains the test's config
      file name. */
  function ConfigHit(test: string): string -> bool
  {
    f => Contains(f, ConfigName(test))
  }

  /** The config check_test settles on: the absolute path of the last glob
      hit that `hit` accepts, or '' when there is none. */
  function LastMatch(testfiles: seq<string>, hit: string -> bool, abspath: string -> string): string
  {
    if |testfiles| == 0 then ""
    else if hit(testfiles[|testfiles| - 1]) then abspath(testfiles[|testfiles| - 1])
    else LastMatch(testfiles[..|testfiles| - 1], hit, abspath)
  }

  lemma LastMatchTakeOneMore(testfiles: seq<string>, i: nat, hit: string -> bool, abspath: string -> string)
    requires i < |testfiles|
    ensures LastMatch(testfiles[..i + 1], hit, abspath)
            == if hit(testfiles[i]) then abspath(testfiles[i]) else LastMatch(testfiles[..i], hit, abspath)
  {
    assert testfiles[..i + 1][..i] == testfiles[..i];
  }

  /** check_test: each glob hit containing the config file name replaces
      the answer. */
  method CheckTest(test: string, testfiles: seq<string>, abspath: string -> string) returns (config: string)
    ensures config == LastMatch(testfiles, ConfigHit(test), abspath)
  {
    var testConfig := ConfigName(test);
    config := "";
    for i := 0 to |testfiles|
      invariant config == LastMatch(testfiles[..i], ConfigHit(test), abspath)
    {
      LastMatchTakeOneMore(testfiles, i, ConfigHit(test), abspath);
      if Contains(testfiles[i], testConfig) {
        config := abspath(testfiles[i]);
      }
    }
    assert testfiles[..|testfiles|] == testfiles;
  }

  /** Without a hit the answer is ''. */
  lemma {:induction false} NoHitNoMatch(testfiles: seq<string>, hit: string -> bool, abspath: string -> string)
    requires forall i :: 0 <= i < |testfiles| ==> !hit(testfiles[i])
    ensures LastMatch(testfiles, hit, abspath) == ""
    decreases |testfiles|
  {
    if |testfiles| > 0 {
      var n := |testfiles| - 1;
      assert forall i :: 0 <= i < n ==> testfiles[..n][i] == testfiles[i];
      NoHitNoMatch(testfiles[..n], hit, abspath);
    }
  }

  /** With hits, the answer is the path of the last one. */
  lemma {:induction false} LastHitMatches(testfiles: seq<string>, hit: string -> bool, abspath: string -> string, i: nat)
    requires i < |testfiles| && hit(testfiles[i])
    requires forall j :: i < j < |testfiles| ==> !hit(testfiles[j])
    ensures LastMatch(testfiles, hit, abspath) == abspath(testfiles[i])
    decreases |testfiles|
  {
    var n := |testfiles| - 1;
    if i < n {
      assert forall j :: i < j < n ==> testfiles[..n][j] == testfiles[j];
      LastHitMatches(testfiles[..n], hit, abspath, i);
    }
  }

  // ---------------------------------------------------------- check_tests

  /** The base names of the glob hits. */
  function BaseNames(testfiles: seq<string>): seq<string>
  {
    MapSeq(testfiles, BaseName)
  }

  /** The loop over the glob hits: the base name of the first hit whose base
      name an earlier hit already has, if any. */
  method FirstDuplicateName(testfiles: seq<string>) returns (dup: Option<string>)
    ensures dup.None? <==> NoDup(BaseNames(testfiles))
    ensures dup.Some? ==> exists j :: 0 <= j < |testfiles| && dup.value == BaseName(testfiles[j])
                                      && dup.value in BaseNames(testfiles)[..j] && NoDup(BaseNames(testfiles)[..j])
  {
    var names := BaseNames(testfiles);
    var testfilenames: seq<string> := [];
    for i := 0 to |testfiles|
      invariant testfilenames == names[..i]
      invariant NoDup(testfilenames)
    {
      var name := BaseName(testfiles[i]);
      if name in testfilenames {
        return Some(name);
      }
      NoDupSnoc(testfilenames, name);
      assert names[..i + 1] == testfilenames + [name];
      testfilenames := testfilenames + [name];
    }
    assert names[..|testfiles|] == names;
    return None;
  }

  /** Appending an element that is not there keeps a list free of
      duplicates. */
  lemma NoDupSnoc<T>(s: seq<T>, x: T)
    requires NoDup(s) && x !in s
    ensures NoDup(s + [x])
  {
    var t := s + [x];
    forall i, j | 0 <= i < j < |t| ensures t[i] != t[j] {
      if j == |s| {
        assert t[i] == s[i];
      } else {
        assert t[i] == s[i] && t[j] == s[j];
      }
    }
  }

  /** A list with a repeated element somewhere has duplicates. */
  lemma RepeatNoDup<T>(s: seq<T>, j: nat)
    requires j < |s| && s[j] in s[..j]
    ensures !NoDup(s)
  {
    var i :| 0 <= i < j && s[..j][i] == s[j];
    assert s[i] == s[j];
  }

  /** A line that is blank (empty or whitespace only) or holds a '#' is
      not a test name. */
  predicate Skipped(test: string)
  {
    (forall k :: 0 <= k < |test| ==> IsSpace(test[k])) || '#' in test
  }

  /** The config a line resolves to: check_test's answer. */
  function Resolve(testfiles: seq<string>, abspath: string -> string): string -> string
  {
    test => LastMatch(testfiles, ConfigHit(test), abspath)
  }

  /** check_test's answer for every line of the user's list. */
  function Answers(tests: seq<string>, testfiles: seq<string>, abspath: string -> string): (r: seq<string>)
    ensures |r| == |tests|
    ensures forall k :: 0 <= k < |tests| ==> r[k] == LastMatch(testfiles, ConfigHit(tests[k]), abspath)
  {
    if |tests| == 0 then []
    else Answers(tests[..|tests| - 1], testfiles, abspath) + [LastMatch(testfiles, ConfigHit(tests[|tests| - 1]), abspath)]
  }

  /** The answers are Resolve applied to every line. */
  lemma AnswersResolve(tests: seq<string>, testfiles: seq<string>, abspath: string -> string)
    ensures Answers(tests, testfiles, abspath) == MapSeq(tests, Resolve(testfiles, abspath))
  {
  }

  /** The loop over the user's lines, given check_test's answer found[k]
      for line k (only consulted when the line is not skipped): the config
      of every line that is not skipped, or the first line whose config is
      not found (''). */
  function Collected(tests: seq<string>, found: seq<string>): Result<seq<string>, We2eError>
    requires |found| == |tests|
  {
    if |tests| == 0 then Ok([])
    else
      var n := |tests| - 1;
      match Collected(tests[..n], found[..n])
      case Err(e) => Err(e)
      case Ok(toRun) =>
        if Skipped(tests[n]) then Ok(toRun)
        else if found[n] == "" then Err(TestNotFound(tests[n]))
        else Ok(toRun + [found[n]])
  }

  /** One more line, once the earlier ones were collected into toRun. */
  lemma CollectedStep(tests: seq<string>, found: seq<string>, i: nat, toRun: seq<string>)
    requires |found| == |tests| && i < |tests|
    requires Collected(tests[..i], found[..i]) == Ok(toRun)
    ensures Collected(tests[..i + 1], found[..i + 1])
            == if Skipped(tests[i]) then Ok(toRun)
               else if found[i] == "" then Err(TestNotFound(tests[i]))
               else Ok(toRun + [found[i]])
  {
    assert tests[..i + 1][..i] == tests[..i];
    assert found[..i + 1][..i] == found[..i];
  }

  /** Every line that is not skipped has a config. */
  ghost predicate AllResolve(tests: seq<string>, found: seq<string>)
    requires |found| == |tests|
  {
    forall i :: 0 <= i < |tests| && !Skipped(tests[i]) ==> found[i] != ""
  }

  /** The lines are collected exactly when every line that is not skipped
      has a config. */
  lemma {:induction false} CollectedOk(tests: seq<string>, found: seq<string>)
    requires |found| == |tests|
    ensures Collected(tests, found).Ok? <==> AllResolve(tests, found)
    decreases |tests|
  {
    if |tests| > 0 {
      var n := |tests| - 1;
      CollectedOk(tests[..n], found[..n]);
      assert forall k :: 0 <= k < n ==> tests[..n][k] == tests[k] && found[..n][k] == found[k];
    }
  }

  /** The lines that name a test, in line order. */
  function Listed(tests: seq<string>): (r: seq<string>)
    ensures forall t :: t in r <==> t in tests && !Skipped(t)
  {
    if |tests| == 0 then []
    else
      var n := |tests| - 1;
      assert tests == tests[..n] + [tests[n]];
      Listed(tests[..n]) + (if Skipped(tests[n]) then [] else [tests[n]])
  }

  /** With check_test's answers, a successful collection lists the configs
      of the lines that are not skipped, in line order. */
  lemma {:induction false} CollectedConfigs(tests: seq<string>, resolve: string -> string)
    requires Collected(tests, MapSeq(tests, resolve)).Ok?
    ensures Collected(tests, MapSeq(tests, resolve)).value == MapSeq(Listed(tests), resolve)
    decreases |tests|
  {
    if |tests| > 0 {
      var n := |tests| - 1;
      var init := tests[..n];
      var found := MapSeq(tests, resolve);
      assert found[..n] == MapSeq(init, resolve);
      CollectedConfigs(init, resolve);
      var more := if Skipped(tests[n]) then [] else [tests[n]];
      MapSeqAppend(Listed(init), more, resolve);
    }
  }

  /** A failure names the first line that is not skipped and has no
      config. */
  lemma {:induction false} CollectedErr(tests: seq<string>, found: seq<string>)
    requires |found| == |tests| && Collected(tests, found).Err?
    ensures exists i :: 0 <= i < |tests| && !Skipped(tests[i]) && found[i] == ""
                        && Collected(tests, found).error == TestNotFound(tests[i])
                        && AllResolve(tests[..i], found[..i])
    decreases |tests|
  {
    var n := |tests| - 1;
    var init, initFound := tests[..n], found[..n];
    if Collected(init, initFound).Err? {
      CollectedErr(init, initFound);
      var i :| 0 <= i < n && !Skipped(init[i]) && initFound[i] == ""
               && Collected(init, initFound).error == TestNotFound(init[i])
               && AllResolve(init[..i], initFound[..i]);
      assert init[..i] == tests[..i] && initFound[..i] == found[..i];
      assert init[i] == tests[i] && initFound[i] == found[i];
    } else {
      CollectedOk(init, initFound);
    }
  }

  /** One step of the symlink loop: a linked test whose real path is still
      in the list is removed (its first occurrence).  list.remove would
      fail on a test no longer listed; DropLinkedStillListed shows the loop
      never reaches that case. */
  function LinkStep(toRun: seq<string>, testfile: string, isLink: string -> bool, realpath: string -> string): seq<string>
  {
    if testfile in toRun && isLink(testfile) && realpath(testfile) in toRun then RemoveFirst(toRun, testfile) else toRun
  }

  /** The symlink loop over a copy of the list: the list after the first
      `done` entries of the copy were looked at, starting from `start`. */
  function DropLinked(start: seq<string>, done: nat, isLink: string -> bool, realpath: string -> string): seq<string>
    requires done <= |start|
  {
    if done == 0 then start
    else LinkStep(DropLinked(start, done - 1, isLink, realpath), start[done - 1], isLink, realpath)
  }

  lemma SuffixStep(s: seq<string>, i: nat)
    requires i < |s|
    ensures multiset(s[i..]) == multiset{s[i]} + multiset(s[i + 1..])
  {
    assert s[i..] == [s[i]] + s[i + 1..];
  }

  /** The entries of the copy not yet looked at are all still in the list,
      so the entry looked at next is there for list.remove. */
  lemma {:induction false} DropLinkedStillListed(start: seq<string>, done: nat, isLink: string -> bool, realpath: string -> string)
    requires done <= |start|
    ensures multiset(start[done..]) <= multiset(DropLinked(start, done, isLink, realpath))
    ensures done < |start| ==> start[done] in DropLinked(start, done, isLink, realpath)
    decreases done
  {
    var cur := DropLinked(start, done, isLink, realpath);
    if done > 0 {
      var prev := DropLinked(start, done - 1, isLink, realpath);
      var t := start[done - 1];
      assert multiset(start[done..]) <= multiset(cur) by {
        DropLinkedStillListed(start, done - 1, isLink, realpath);
        SuffixStep(start, done - 1);
        LinkStepRemoves(prev, t, isLink, realpath);
        StillListed(multiset(start[done..]), prev, cur, t);
      }
    } else {
      assert cur == start;
    }
    if done < |start| {
      assert start[done] in multiset(cur) by {
        SuffixStep(start, done);
      }
    }
  }

  /** Removing one occurrence of t from a list holding t and the rest of
      the copy still leaves the rest of the copy. */
  lemma StillListed(rest: multiset<string>, before: seq<string>, after: seq<string>, t: string)
    requires multiset{t} + rest <= multiset(before)
    requires after == before || multiset(after) == multiset(before) - multiset{t}
    ensures rest <= multiset(after)
  {
  }

  lemma DropLinkedTakeOneMore(start: seq<string>, i: nat, isLink: string -> bool, realpath: string -> string)
    requires i < |start|
    ensures DropLinked(start, i + 1, isLink, realpath) == LinkStep(DropLinked(start, i, isLink, realpath), start[i], isLink, realpath)
  {
  }

  /** The symlink loop only removes entries. */
  lemma {:induction false} DropLinkedShrinks(start: seq<string>, done: nat, isLink: string -> bool, realpath: string -> string)
    requires done <= |start|
    ensures multiset(DropLinked(start, done, isLink, realpath)) <= multiset(start)
    decreases done
  {
    if done > 0 {
      var prev := DropLinked(start, done - 1, isLink, realpath);
      DropLinkedShrinks(start, done - 1, isLink, realpath);
      DropLinkedTakeOneMore(start, done - 1, isLink, realpath);
      LinkStepRemoves(prev, start[done - 1], isLink, realpath);
      RemovalStep(prev, DropLinked(start, done, isLink, realpath), start[done - 1], multiset(start));
    }
  }

  /** The symlink loop never removes a test that is not a link. */
  lemma {:induction false} DropLinkedKeepsPlainTests(start: seq<string>, done: nat, isLink: string -> bool, realpath: string -> string, x: string)
    requires done <= |start| && !isLink(x)
    ensures multiset(DropLinked(start, done, isLink, realpath))[x] == multiset(start)[x]
    decreases done
  {
    if done > 0 {
      var prev := DropLinked(start, done - 1, isLink, realpath);
      var t := start[done - 1];
      DropLinkedKeepsPlainTests(start, done - 1, isLink, realpath, x);
      DropLinkedTakeOneMore(start, done - 1, isLink, realpath);
      LinkStepRemoves(prev, t, isLink, realpath);
      OtherCountStep(prev, DropLinked(start, done, isLink, realpath), t, x);
    }
  }

  /** A step that keeps the list or drops one t stays within any bound
      the list was within. */
  lemma RemovalStep(before: seq<string>, after: seq<string>, t: string, bound: multiset<string>)
    requires multiset(before) <= bound
    requires after == before || multiset(after) == multiset(before) - multiset{t}
    ensures multiset(after) <= bound
  {
  }

  /** Such a step keeps the count of every other test. */
  lemma OtherCountStep(before: seq<string>, after: seq<string>, t: string, x: string)
    requires after == before || (t != x && multiset(after) == multiset(before) - multiset{t})
    ensures multiset(after)[x] == multiset(before)[x]
  {
  }

  /** A step either leaves the list alone or removes one occurrence of a
      link whose real path is listed. */
  lemma LinkStepRemoves(toRun: seq<string>, testfile: string, isLink: string -> bool, realpath: string -> string)
    ensures var r := LinkStep(toRun, testfile, isLink, realpath);
            r == toRun || (isLink(testfile) && realpath(testfile) in toRun
                           && multiset(r) == multiset(toRun) - multiset{testfile})
  {
    if testfile in toRun {
      RemoveFirstMultiset(toRun, testfile);
    }
  }

  /** The symlink loop over the copy; each entry it looks at is still in
      the list, so list.remove never fails. */
  method RemoveLinkedCopies(toRun: seq<string>, isLink: string -> bool, realpath: string -> string) returns (r: seq<string>)
    ensures r == LinksDropped(toRun, isLink, realpath)
  {
    r := toRun;
    for i := 0 to |toRun|
      invariant r == DropLinked(toRun, i, isLink, realpath)
    {
      var testfile := toRun[i];
      DropLinkedTakeOneMore(toRun, i, isLink, realpath);
      DropLinkedStillListed(toRun, i, isLink, realpath);
      if isLink(testfile) && realpath(testfile) in r {
        r := RemoveFirst(r, testfile);
      }
    }
  }

  /** One line of the user's list: whether it is skipped and, if not,
      the config check_test finds for it. */
  method ResolveLine(test: string, testfiles: seq<string>, abspath: string -> string) returns (skip: bool, found: string)
    ensures skip == Skipped(test)
    ensures !skip ==> found == LastMatch(testfiles, ConfigHit(test), abspath)
  {
    skip := Skipped(test);
    found := "";
    if !skip {
      found := CheckTest(test, testfiles, abspath);
    }
  }

  /** The loop over the user's lines, resolving each with check_test. */
  method CollectTests(tests: seq<string>, testfiles: seq<string>, abspath: string -> string)
    returns (r: Result<seq<string>, We2eError>)
    ensures r == Collected(tests, Answers(tests, testfiles, abspath))
  {
    ghost var answers := Answers(tests, testfiles, abspath);
    var toRun: seq<string> := [];
    for i := 0 to |tests|
      invariant Collected(tests[..i], answers[..i]) == Ok(toRun)
    {
      var skip, found := ResolveLine(tests[i], testfiles, abspath);
      assert !skip ==> found == answers[i];
      CollectLine(tests, answers, i, toRun, skip, found);
      if !skip {
        if found == "" {
          return Err(TestNotFound(tests[i]));
        }
        toRun := toRun + [found];
      }
    }
    assert tests[..|tests|] == tests && answers[..|tests|] == answers;
    return Ok(toRun);
  }

  /** One pass of the loop over the user's lines: a skipped line leaves
      the list alone, a line without a config fails the whole loop, any
      other line adds its config. */
  lemma CollectLine(tests: seq<string>, answers: seq<string>, i: nat, toRun: seq<string>,
                    skip: bool, found: string)
    requires |answers| == |tests| && i < |tests|
    requires Collected(tests[..i], answers[..i]) == Ok(toRun)
    requires skip == Skipped(tests[i]) && (!skip ==> found == answers[i])
    ensures skip ==> Collected(tests[..i + 1], answers[..i + 1]) == Ok(toRun)
    ensures !skip && found == "" ==> Collected(tests, answers) == Err(TestNotFound(tests[i]))
    ensures !skip && found != "" ==> Collected(tests[..i + 1], answers[..i + 1]) == Ok(toRun + [found])
  {
    CollectedStep(tests, answers, i, toRun);
    if !skip && found == "" {
      CollectedErrStays(tests, answers, i + 1);
    }
  }

  /** check_tests: unique base names first, then the lines, then the
      symlink loop, then list(set(...)) when tests are still repeated. */
  method CheckTests(tests: seq<string>, testfiles: seq<string>, abspath: string -> string,
                    isLink: string -> bool, realpath: string -> string)
    returns (r: Result<seq<string>, We2eError>)
    ensures !NoDup(BaseNames(testfiles)) ==> r.Err? && r.error.DuplicateTestFile?
    ensures (NoDup(BaseNames(testfiles)) && Collected(tests, Answers(tests, testfiles, abspath)).Err?)
            ==> r == Collected(tests, Answers(tests, testfiles, abspath))
    ensures (NoDup(BaseNames(testfiles)) && Collected(tests, Answers(tests, testfiles, abspath)).Ok?)
            ==> r.Ok? && NoDup(r.value)
                && forall x :: x in r.value <==> x in LinksDropped(Collected(tests, Answers(tests, testfiles, abspath)).value, isLink, realpath)
    ensures (NoDup(BaseNames(testfiles)) && Collected(tests, Answers(tests, testfiles, abspath)).Ok?
             && NoDup(LinksDropped(Collected(tests, Answers(tests, testfiles, abspath)).value, isLink, realpath)))
            ==> r == Ok(LinksDropped(Collected(tests, Answers(tests, testfiles, abspath)).value, isLink, realpath))
  {
    var dup := FirstDuplicateName(testfiles);
    if dup.Some? {
      return Err(DuplicateTestFile(dup.value));
    }
    var collected := CollectTests(tests, testfiles, abspath);
    if collected.Err? {
      return collected;
    }
    var toRun := RemoveLinkedCopies(collected.value, isLink, realpath);
    if !NoDup(toRun) {
      toRun := SetToList(set x | x in toRun);
    }
    return Ok(toRun);
  }

  /** The list once the symlink loop has looked at every entry. */
  function LinksDropped(toRun: seq<string>, isLink: string -> bool, realpath: string -> string): seq<string>
  {
    DropLinked(toRun, |toRun|, isLink, realpath)
  }

  /** Once a prefix of the lines fails, the whole list fails the same way. */
  lemma {:induction false} CollectedErrStays(tests: seq<string>, found: seq<string>, i: nat)
    requires |found| == |tests| && i <= |tests| && Collected(tests[..i], found[..i]).Err?
    ensures Collected(tests, found) == Collected(tests[..i], found[..i])
    decreases |tests| - i
  {
    if i < |tests| {
      CollectedErrStep(tests, found, i);
      CollectedErrStays(tests, found, i + 1);
    } else {
      assert tests[..i] == tests && found[..i] == found;
    }
  }

  /** A failed prefix stays failed one line further. */
  lemma CollectedErrStep(tests: seq<string>, found: seq<string>, i: nat)
    requires |found| == |tests| && i < |tests| && Collected(tests[..i], found[..i]).Err?
    ensures Collected(tests[..i + 1], found[..i + 1]) == Collected(tests[..i], found[..i])
  {
    assert tests[..i + 1][..i] == tests[..i];
    assert found[..i + 1][..i] == found[..i];
  }

  // ----------------------------------------------- check_task_get_extrn_bcs

  /** A value loaded from a YAML file. */
  datatype Yaml =
    | YStr(s: string)
    | YInt(i: int)
    | YBool(b: bool)
    | YNull
    | YList(items: seq<Yaml>)
    | YMap(m: map<string, Yaml>)

  /** Python truthiness. */
  predicate Truthy(v: Yaml)
  {
    match v
    case YStr(s) => s != ""
    case YInt(i) => i != 0
    case YBool(b) => b
    case YNull => false
    case YList(items) => |items| > 0
    case YMap(m) => |m| > 0
  }

  /** d.get(key, default) */
  function Get(d: Yaml, key: string, default: Yaml): (r: Result<Yaml, We2eError>)
    ensures r.Ok? <==> d.YMap?
  {
    if d.YMap? then Ok(if key in d.m then d.m[key] else default) else Err(NotAMapping)
  }

  /** d[key] */
  function Index(d: Yaml, key: string): (r: Result<Yaml, We2eError>)
    ensures r.Ok? <==> d.YMap? && key in d.m
  {
    if d.YMap? then (if key in d.m then Ok(d.m[key]) else Err(KeyMissing(key))) else Err(BadOperand)
  }

  /** `item in v`: a substring of a string, an entry of a list, a key of
      a dict; anything else is a TypeError. */
  function InYaml(item: string, v: Yaml): Result<bool, We2eError>
  {
    match v
    case YStr(s) => Ok(Contains(s, item))
    case YList(items) => Ok(YStr(item) in items)
    case YMap(m) => Ok(item in m)
    case _ => Err(BadOperand)
  }

  /** str(v) of a scalar; `repr` gives the text of a list or dict. */
  function StrOf(v: Yaml, repr: Yaml -> string): string
  {
    match v
    case YStr(s) => s
    case YInt(i) => IntToDecimal(i)
    case YBool(b) => if b then "True" else "False"
    case YNull => "None"
    case _ => repr(v)
  }

  const Placeholder: string := "set_to_non_default_location_in_testing_script"

  /** The outcome: the section returned and the whole configuration after
      the call, which updates its argument in place. */
  datatype BcsOutcome = BcsOutcome(bcs: Yaml, cfg: map<string, Yaml>)

  /** The keys of the task section for ics or lbcs. */
  function SectionKey(icsOrLbcs: string): string { "task_get_extrn_" + icsOrLbcs }

  function StagedKey(): string { "USE_USER_STAGED_EXTRN_FILES" }

  function SysBaseDirKey(iOrL: string): string { "EXTRN_MDL_SYSBASEDIR_" + iOrL }

  function AltSysBaseDirKey(iOrL: string): string { "TEST_ALT_EXTRN_MDL_SYSBASEDIR_" + iOrL }

  function SourceBaseDirKey(iOrL: string): string { "EXTRN_MDL_SOURCE_BASEDIR_" + iOrL }

  function ModelNameKey(iOrL: string): string { "EXTRN_MDL_NAME_" + iOrL }

  function FileFmtKey(iOrL: string): string { "FV3GFS_FILE_FMT_" + iOrL }

  const StagedBaseKey: string := "TEST_EXTRN_MDL_SOURCE_BASEDIR"

  /** Whether the task is switched off: a taskgroups setting without the
      coldstart group, or the task listed with no value. */
  function TaskOff(cfg: map<string, Yaml>, section: string): (r: Result<bool, We2eError>)
  {
    var rocoto := if "rocoto" in cfg then cfg["rocoto"] else YMap(map[]);
    match Get(rocoto, "taskgroups", YNull)
    case Err(e) => Err(e)
    case Ok(taskgroups) =>
      match (if taskgroups == YNull then Ok(true) else InYaml("coldstart.yaml", taskgroups))
      case Err(e) => Err(e)
      case Ok(hasColdstart) =>
        if !hasColdstart then Ok(true)
        else
          match Get(rocoto, "tasks", YMap(map[]))
          case Err(e) => Err(e)
          case Ok(rocotoTasks) =>
            match Get(rocotoTasks, section, YStr("NA"))
            case Err(e) => Err(e)
            case Ok(task) => Ok(task == YNull)
  }

  /** The placeholder system directory replaced by the machine file's
      alternative, which must be present; `rejected` is the directory check
      that raises. */
  function Redirect(cfg: map<string, Yaml>, section: string, cfgBcs: Yaml, mach: map<string, Yaml>,
                    iOrL: string, rejected: Yaml -> bool): (r: Result<BcsOutcome, We2eError>)
    requires cfgBcs.YMap? && section in cfg
    ensures r.Ok? <==> AltSysBaseDirGiven(mach, iOrL) && !rejected(AltSysBaseDir(mach, iOrL))
    ensures AltSysBaseDirGiven(mach, iOrL) && rejected(AltSysBaseDir(mach, iOrL))
            ==> r == Err(NotADirectory(AltSysBaseDirKey(iOrL)))
    ensures r.Ok? ==> r.value.bcs == YMap(cfgBcs.m[SysBaseDirKey(iOrL) := AltSysBaseDir(mach, iOrL)])
                      && r.value.cfg == cfg[section := r.value.bcs]
  {
    var altKey := AltSysBaseDirKey(iOrL);
    if "platform" !in mach then Err(KeyMissing("platform"))
    else
      match InYaml(altKey, mach["platform"])
      case Err(e) => Err(e)
      case Ok(present) =>
        if !present then Err(KeyMissing(altKey))
        else
          match Index(mach["platform"], altKey)
          case Err(e) => Err(e)
          case Ok(alt) =>
            if rejected(alt) then Err(NotADirectory(altKey))
            else
              var bcs := YMap(cfgBcs.m[SysBaseDirKey(iOrL) := alt]);
              Ok(BcsOutcome(bcs, cfg[section := bcs]))
  }

  /** The machine file's platform section names an alternative system
      directory. */
  predicate AltSysBaseDirGiven(mach: map<string, Yaml>, iOrL: string)
  {
    "platform" in mach && mach["platform"].YMap? && AltSysBaseDirKey(iOrL) in mach["platform"].m
  }

  function AltSysBaseDir(mach: map<string, Yaml>, iOrL: string): Yaml
    requires AltSysBaseDirGiven(mach, iOrL)
  {
    mach["platform"].m[AltSysBaseDirKey(iOrL)]
  }

  /** The redirect as written: the check raises when the alternative
      directory EXISTS, although its message says it does not. */
  function RedirectSysBaseDirAsWritten(cfg: map<string, Yaml>, section: string, cfgBcs: Yaml, mach: map<string, Yaml>,
                                       iOrL: string, isDir: Yaml -> bool): (r: Result<BcsOutcome, We2eError>)
    requires cfgBcs.YMap? && section in cfg
  {
    Redirect(cfg, section, cfgBcs, mach, iOrL, isDir)
  }

  /** An existing alternative directory is rejected as written. */
  lemma ExistingAltDirRejected(cfg: map<string, Yaml>, section: string, cfgBcs: Yaml, mach: map<string, Yaml>,
                               iOrL: string, isDir: Yaml -> bool)
    requires cfgBcs.YMap? && section in cfg
    requires AltSysBaseDirGiven(mach, iOrL) && isDir(AltSysBaseDir(mach, iOrL))
    ensures RedirectSysBaseDirAsWritten(cfg, section, cfgBcs, mach, iOrL, isDir)
            == Err(NotADirectory(AltSysBaseDirKey(iOrL)))
  {
  }

  /** The redirect as intended: an alternative that is not a directory
      stops the run. */
  function RedirectSysBaseDir(cfg: map<string, Yaml>, section: string, cfgBcs: Yaml, mach: map<string, Yaml>,
                              iOrL: string, isDir: Yaml -> bool): (r: Result<BcsOutcome, We2eError>)
    requires cfgBcs.YMap? && section in cfg
    ensures r.Ok? ==> r.value.cfg.Keys == cfg.Keys && r.value.cfg[section] == r.value.bcs
  {
    Redirect(cfg, section, cfgBcs, mach, iOrL, alt => !isDir(alt))
  }

  /** As intended, an existing alternative directory replaces the
      placeholder, and nothing else changes. */
  lemma ExistingAltDirUsed(cfg: map<string, Yaml>, section: string, cfgBcs: Yaml, mach: map<string, Yaml>,
                           iOrL: string, isDir: Yaml -> bool)
    requires cfgBcs.YMap? && section in cfg
    requires AltSysBaseDirGiven(mach, iOrL)
    ensures var r := RedirectSysBaseDir(cfg, section, cfgBcs, mach, iOrL, isDir);
            r.Ok? <==> isDir(AltSysBaseDir(mach, iOrL))
    ensures var r := RedirectSysBaseDir(cfg, section, cfgBcs, mach, iOrL, isDir);
            r.Ok? ==> r.value.bcs == YMap(cfgBcs.m[SysBaseDirKey(iOrL) := AltSysBaseDir(mach, iOrL)])
                      && r.value.cfg == cfg[section := r.value.bcs]
  {
  }

  /** Staged data: look on disk only, under the machine file's staged-data
      directory, by model name (and file format for FV3GFS). */
  function PointToStagedData(cfg: map<string, Yaml>, section: string, cfgBcs: Yaml, mach: map<string, Yaml>,
                             dflt: map<string, Yaml>, iOrL: string, isDir: Yaml -> bool, repr: Yaml -> string)
    : (r: Result<BcsOutcome, We2eError>)
    requires cfgBcs.YMap? && section in cfg && section != "platform"
    ensures r.Ok? ==> r.value.cfg.Keys == cfg.Keys && r.value.cfg[section] == r.value.bcs
    ensures r.Ok? ==> "platform" in cfg && cfg["platform"].YMap?
                      && r.value.cfg["platform"] == YMap(cfg["platform"].m["EXTRN_MDL_DATA_STORES" := YStr("disk")])
    ensures r.Ok? ==> r.value.cfg == cfg["platform" := r.value.cfg["platform"]][section := r.value.bcs]
    ensures r.Ok? ==> StagedBaseGiven(mach) && isDir(mach["platform"].m[StagedBaseKey])
    ensures (StagedBaseGiven(mach) && !isDir(mach["platform"].m[StagedBaseKey])
             && "platform" in cfg && cfg["platform"].YMap?) ==> r == Err(NotADirectory(StagedBaseKey))
    ensures r.Ok? ==> r.value.bcs.YMap? && SourceBaseDirKey(iOrL) in r.value.bcs.m
                      && forall k :: k in cfgBcs.m && k != SourceBaseDirKey(iOrL)
                                     ==> k in r.value.bcs.m && r.value.bcs.m[k] == cfgBcs.m[k]
  {
    if "platform" !in cfg then Err(KeyMissing("platform"))
    else if !cfg["platform"].YMap? then Err(BadOperand)
    else
      var platform := YMap(cfg["platform"].m["EXTRN_MDL_DATA_STORES" := YStr("disk")]);
      if "platform" !in mach then Err(KeyMissing("platform"))
      else
        match InYaml(StagedBaseKey, mach["platform"])
        case Err(e) => Err(e)
        case Ok(present) =>
          if !present then Err(KeyMissing(StagedBaseKey))
          else
            match Index(mach["platform"], StagedBaseKey)
            case Err(e) => Err(e)
            case Ok(base) =>
              if !isDir(base) then Err(NotADirectory(StagedBaseKey))
              else if ModelNameKey(iOrL) !in cfgBcs.m then Err(KeyMissing(ModelNameKey(iOrL)))
              else
                var name := cfgBcs.m[ModelNameKey(iOrL)];
                match WithFileFormat(cfgBcs, name, dflt, section, iOrL)
                case Err(e) => Err(e)
                case Ok(withFmt) =>
                  var path := StagedPath(StrOf(base, repr), name, withFmt, iOrL, repr);
                  var bcs := YMap(withFmt.m[SourceBaseDirKey(iOrL) := YStr(path)]);
                  Ok(BcsOutcome(bcs, cfg["platform" := platform][section := bcs]))
  }

  /** The machine file's platform section names the staged-data
      directory. */
  predicate StagedBaseGiven(mach: map<string, Yaml>)
  {
    "platform" in mach && mach["platform"].YMap? && StagedBaseKey in mach["platform"].m
  }

  /** FV3GFS without a file format takes the default configuration's. */
  function WithFileFormat(cfgBcs: Yaml, name: Yaml, dflt: map<string, Yaml>, section: string, iOrL: string)
    : (r: Result<Yaml, We2eError>)
    requires cfgBcs.YMap?
    ensures r.Ok? ==> r.value.YMap? && r.value.m.Keys == cfgBcs.m.Keys + (if name == YStr("FV3GFS") then {FileFmtKey(iOrL)} else {})
    ensures r.Ok? && (name != YStr("FV3GFS") || FileFmtKey(iOrL) in cfgBcs.m) ==> r.value == cfgBcs
  {
    if name == YStr("FV3GFS") && FileFmtKey(iOrL) !in cfgBcs.m then
      if section !in dflt then Err(KeyMissing(section))
      else
        match Index(dflt[section], FileFmtKey(iOrL))
        case Err(e) => Err(e)
        case Ok(fmt) => Ok(YMap(cfgBcs.m[FileFmtKey(iOrL) := fmt]))
    else Ok(cfgBcs)
  }

  /** The cycle's directory name, left for the workflow to fill in. */
  const CycleTemplate: string := "${yyyymmddhh}"

  /** The staged-data directory: base/FV3GFS/format/${yyyymmddhh} for
      FV3GFS, base/name/${yyyymmddhh} for any other model. */
  function StagedPath(base: string, name: Yaml, bcs: Yaml, iOrL: string, repr: Yaml -> string): string
    requires bcs.YMap?
    requires name == YStr("FV3GFS") ==> FileFmtKey(iOrL) in bcs.m
  {
    if name == YStr("FV3GFS") then
      PathJoin(PathJoin(PathJoin(base, StrOf(name, repr)), StrOf(bcs.m[FileFmtKey(iOrL)], repr)), CycleTemplate)
    else PathJoin(base, StrOf(name, repr) + "/" + CycleTemplate)
  }

  /** check_task_get_extrn_bcs on a test config, the machine file's and the
      default configuration's settings. */
  function CheckTaskGetExtrnBcs(cfg: map<string, Yaml>, mach: map<string, Yaml>, dflt: map<string, Yaml>,
                                icsOrLbcs: string, isDir: Yaml -> bool, repr: Yaml -> string)
    : (r: Result<BcsOutcome, We2eError>)
    ensures r.Err? && r.error.InvalidBcsMode? <==> icsOrLbcs != "lbcs" && icsOrLbcs != "ics"
    ensures r.Ok? ==> SectionKey(icsOrLbcs) in cfg && r.value.cfg.Keys == cfg.Keys
                      && r.value.cfg[SectionKey(icsOrLbcs)] == r.value.bcs
  {
    if icsOrLbcs != "lbcs" && icsOrLbcs != "ics" then Err(InvalidBcsMode(icsOrLbcs))
    else
      var section := SectionKey(icsOrLbcs);
      if section !in cfg then Err(KeyMissing(section))
      else
        match TaskOff(cfg, section)
        case Err(e) => Err(e)
        case Ok(off) =>
          if off then Ok(BcsOutcome(cfg[section], cfg))
          else
            assert section[..9] == "task_get_";
            StagedBcs(cfg, mach, dflt, section, Upper(icsOrLbcs), isDir, repr)
  }

  /** The part for a task that runs: nothing to do unless staged files are
      asked for; then either the placeholder system directory or the
      staged-data directory. */
  function StagedBcs(cfg: map<string, Yaml>, mach: map<string, Yaml>, dflt: map<string, Yaml>,
                     section: string, iOrL: string, isDir: Yaml -> bool, repr: Yaml -> string)
    : (r: Result<BcsOutcome, We2eError>)
    requires section in cfg && section != "platform"
    ensures r.Ok? ==> r.value.cfg.Keys == cfg.Keys && r.value.cfg[section] == r.value.bcs
  {
    var cfgBcs := cfg[section];
    match Get(cfgBcs, StagedKey(), YNull)
    case Err(e) => Err(e)
    case Ok(staged) =>
      if !Truthy(staged) then Ok(BcsOutcome(cfgBcs, cfg))
      else if (if SysBaseDirKey(iOrL) in cfgBcs.m then cfgBcs.m[SysBaseDirKey(iOrL)] else YNull) == YStr(Placeholder) then
        RedirectSysBaseDir(cfg, section, cfgBcs, mach, iOrL, isDir)
      else PointToStagedData(cfg, section, cfgBcs, mach, dflt, iOrL, isDir, repr)
  }

  /** Whatever the model, the staged-data directory is one directory per
      cycle: it ends in /${yyyymmddhh}. */
  lemma StagedPathPerCycle(base: string, name: Yaml, bcs: Yaml, iOrL: string, repr: Yaml -> string)
    requires bcs.YMap?
    requires name == YStr("FV3GFS") ==> FileFmtKey(iOrL) in bcs.m
    ensures EndsWith(StagedPath(base, name, bcs, iOrL, repr), "/" + CycleTemplate)
  {
    var cycle := CycleTemplate;
    assert cycle[0] == '$';
    if name == YStr("FV3GFS") {
      var model := PathJoin(base, StrOf(name, repr));
      JoinedNonEmpty(base, StrOf(name, repr));
      JoinedNonEmpty(model, StrOf(bcs.m[FileFmtKey(iOrL)], repr));
      JoinedUnderDir(PathJoin(model, StrOf(bcs.m[FileFmtKey(iOrL)], repr)), cycle);
    } else {
      TailUnderDir(base, StrOf(name, repr), cycle);
    }
  }

  lemma JoinedNonEmpty(a: string, b: string)
    requires |a| > 0 || |b| > 0
    ensures |PathJoin(a, b)| > 0
  {
  }

  /** Joining a relative name onto a non-empty directory puts a '/'
      before the name. */
  lemma JoinedUnderDir(dir: string, name: string)
    requires |dir| > 0 && !StartsWith(name, "/")
    ensures EndsWith(PathJoin(dir, name), "/" + name)
  {
    if dir[|dir| - 1] == '/' {
      SlashEndedJoin(dir[..|dir| - 1], name);
      assert dir[..|dir| - 1] + "/" == dir;
    } else {
      SlashEndedJoin(dir, name);
    }
  }

  /** A directory and a name with a slash between end in the slash and the name. */
  lemma SlashEndedJoin(dir: string, name: string)
    ensures EndsWith(dir + "/" + name, "/" + name)
  {
    var r := dir + "/" + name;
    assert r == dir + ("/" + name);
  }

  /** Joining x/c onto any directory ends in /c. */
  lemma TailUnderDir(base: string, x: string, c: string)
    ensures EndsWith(PathJoin(base, x + "/" + c), "/" + c)
  {
    var tail := x + "/" + c;
    assert tail == x + ("/" + c);
    assert tail[|tail| - |"/" + c|..] == "/" + c;
    if !StartsWith(tail, "/") {
      EndsWithTrans(PathJoin(base, tail), tail, "/" + c);
    }
  }

  lemma EndsWithTrans(s: string, t: string, u: string)
    requires EndsWith(s, t) && EndsWith(t, u)
    ensures EndsWith(s, u)
  {
    assert s[|s| - |u|..] == t[|t| - |u|..];
  }

  /** A task that is switched off leaves the section and the configuration
      as they were. */
  lemma TaskOffLeavesConfig(cfg: map<string, Yaml>, mach: map<string, Yaml>, dflt: map<string, Yaml>,
                            icsOrLbcs: string, isDir: Yaml -> bool, repr: Yaml -> string)
    requires icsOrLbcs == "ics" || icsOrLbcs == "lbcs"
    requires SectionKey(icsOrLbcs) in cfg && TaskOff(cfg, SectionKey(icsOrLbcs)) == Ok(true)
    ensures CheckTaskGetExtrnBcs(cfg, mach, dflt, icsOrLbcs, isDir, repr) == Ok(BcsOutcome(cfg[SectionKey(icsOrLbcs)], cfg))
  {
  }

  /** Without USE_USER_STAGED_EXTRN_FILES set, nothing changes. */
  lemma UnstagedLeavesConfig(cfg: map<string, Yaml>, mach: map<string, Yaml>, dflt: map<string, Yaml>,
                             icsOrLbcs: string, isDir: Yaml -> bool, repr: Yaml -> string)
    requires icsOrLbcs == "ics" || icsOrLbcs == "lbcs"
    requires SectionKey(icsOrLbcs) in cfg && TaskOff(cfg, SectionKey(icsOrLbcs)) == Ok(false)
    requires cfg[SectionKey(icsOrLbcs)].YMap?
    requires StagedKey() !in cfg[SectionKey(icsOrLbcs)].m || !Truthy(cfg[SectionKey(icsOrLbcs)].m[StagedKey()])
    ensures CheckTaskGetExtrnBcs(cfg, mach, dflt, icsOrLbcs, isDir, repr) == Ok(BcsOutcome(cfg[SectionKey(icsOrLbcs)], cfg))
  {
  }

  /** A taskgroups list without the coldstart group switches the task off. */
  lemma NoColdstartMeansOff(cfg: map<string, Yaml>, section: string, groups: seq<Yaml>)
    requires "rocoto" in cfg && cfg["rocoto"].YMap?
    requires "taskgroups" in cfg["rocoto"].m && cfg["rocoto"].m["taskgroups"] == YList(groups)
    requires YStr("coldstart.yaml") !in groups
    ensures TaskOff(cfg, section) == Ok(true)
  {
  }

  /** With the coldstart group (or no taskgroups), a task listed without a
      value is off and a task not listed is on. */
  lemma ListedTaskWithoutValue(cfg: map<string, Yaml>, section: string, tasks: map<string, Yaml>)
    requires "rocoto" in cfg && cfg["rocoto"].YMap?
    requires "taskgroups" !in cfg["rocoto"].m
    requires "tasks" in cfg["rocoto"].m && cfg["rocoto"].m["tasks"] == YMap(tasks)
    ensures TaskOff(cfg, section) == Ok(section in tasks && tasks[section] == YNull)
  {
  }
}
