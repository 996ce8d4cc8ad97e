/**
 * The first match of re.findall for the three patterns the plotting scripts
 * use to pick apart thresholds and levels:
 *
 *   threshold            ([A-Za-z]+)(\d*\.*\d+)([A-Za-z]*)
 *   threshold, units     ([A-Za-z]+)(\d*\.*\d+)([A-Za-z]+)
 *   level/accumulation   (\d*\.*\d+)([A-Za-z]+)
 *
 * findall scans start positions left to right; the groups of the first
 * match are what the scripts read.  At a fixed start, the number group
 * `\d*\.*\d+` is tried greedily.  Every shorter way of matching it ends in
 * front of a digit or a dot, never a letter, so the greedy end (NumberEnd)
 * is the only one after which a letter group can go on, and the letter
 * groups themselves are maximal runs.  `\d` is taken as the ASCII digits.
 */
module PlotRegex {
  import opened Wrappers
  import opened PyStr

  // ------------------------------------------------------------- runs

  /** End of the run of letters that starts at p. */
  function LetterEnd(s: string, p: nat): (e: nat)
    requires p <= |s|
    ensures p <= e <= |s|
    ensures forall k :: p <= k < e ==> IsLetter(s[k])
    ensures e == |s| || !IsLetter(s[e])
    decreases |s| - p
  {
    if p < |s| && IsLetter(s[p]) then LetterEnd(s, p + 1) else p
  }

  /** End of the run of digits that starts at p. */
  function DigitEnd(s: string, p: nat): (e: nat)
    requires p <= |s|
    ensures p <= e <= |s|
    ensures forall k :: p <= k < e ==> IsDigit(s[k])
    ensures e == |s| || !IsDigit(s[e])
    decreases |s| - p
  {
    if p < |s| && IsDigit(s[p]) then DigitEnd(s, p + 1) else p
  }

  /** End of the run of dots that starts at p. */
  function DotEnd(s: string, p: nat): (e: nat)
    requires p <= |s|
    ensures p <= e <= |s|
    ensures forall k :: p <= k < e ==> s[k] == '.'
    ensures e == |s| || s[e] != '.'
    decreases |s| - p
  {
    if p < |s| && s[p] == '.' then DotEnd(s, p + 1) else p
  }

  /** A run function lands on the first position the run does not cover. */
  lemma LetterEndAt(s: string, p: nat, e: nat)
    requires p <= e <= |s|
    requires forall k :: p <= k < e ==> IsLetter(s[k])
    requires e == |s| || !IsLetter(s[e])
    ensures LetterEnd(s, p) == e
    decreases e - p
  {
    if p < e {
      LetterEndAt(s, p + 1, e);
    }
  }

  lemma DigitEndAt(s: string, p: nat, e: nat)
    requires p <= e <= |s|
    requires forall k :: p <= k < e ==> IsDigit(s[k])
    requires e == |s| || !IsDigit(s[e])
    ensures DigitEnd(s, p) == e
    decreases e - p
  {
    if p < e {
      DigitEndAt(s, p + 1, e);
    }
  }

  lemma DotEndAt(s: string, p: nat, e: nat)
    requires p <= e <= |s|
    requires forall k :: p <= k < e ==> s[k] == '.'
    requires e == |s| || s[e] != '.'
    ensures DotEnd(s, p) == e
    decreases e - p
  {
    if p < e {
      DotEndAt(s, p + 1, e);
    }
  }

  // ----------------------------------------------------------- number

  /** Where the greedy match of `\d*\.*\d+` that starts at p ends, if it
      matches at all: the digits, then the dots, then at least one digit;
      when no digit follows the dots, the last digit of the first run is
      what `\d+` takes. */
  function NumberEnd(s: string, p: nat): (r: Option<nat>)
    requires p <= |s|
    ensures r.Some? ==> p < r.value <= |s| && IsDigit(s[r.value - 1])
    ensures r.Some? ==> r.value == |s| || !IsDigit(s[r.value])
    ensures r.Some? ==> forall k :: p <= k < r.value ==> IsDigit(s[k]) || s[k] == '.'
    ensures r.None? ==> p == |s| || !IsDigit(s[p])
  {
    var d := DigitEnd(s, p);
    var k := DotEnd(s, d);
    if d < k < |s| && IsDigit(s[k]) then Some(DigitEnd(s, k))
    else if d > p then Some(d)
    else None
  }

  /** Without dots, the number group is the whole run of digits. */
  lemma NumberEndOfDigits(s: string, p: nat, e: nat)
    requires p < e <= |s|
    requires forall k :: p <= k < e ==> IsDigit(s[k])
    requires e == |s| || (!IsDigit(s[e]) && s[e] != '.')
    ensures NumberEnd(s, p) == Some(e)
  {
    DigitEndAt(s, p, e);
    DotEndAt(s, e, e);
  }

  /** With dots, the number group runs over the digits, the dots and the
      digits after them. */
  lemma NumberEndOfDotted(s: string, p: nat, d: nat, k: nat, e: nat)
    requires p <= d < k < e <= |s|
    requires forall j :: p <= j < d ==> IsDigit(s[j])
    requires forall j :: d <= j < k ==> s[j] == '.'
    requires forall j :: k <= j < e ==> IsDigit(s[j])
    requires e == |s| || !IsDigit(s[e])
    ensures NumberEnd(s, p) == Some(e)
  {
    DigitEndAt(s, p, d);
    DotEndAt(s, d, k);
    DigitEndAt(s, k, e);
  }

  /** The number group takes all of digits a, dots b and digits c when
      what follows cannot continue it. */
  lemma NumberEndOf(s: string, p: nat, a: string, b: string, c: string)
    requires AllDigits(a) && AllDots(b) && AllDigits(c) && |c| > 0
    requires p + |a| + |b| + |c| <= |s| && s[p..p + |a| + |b| + |c|] == a + b + c
    requires p + |a| + |b| + |c| == |s| || (!IsDigit(s[p + |a| + |b| + |c|]) && s[p + |a| + |b| + |c|] != '.')
    ensures NumberEnd(s, p) == Some(p + |a| + |b| + |c|)
  {
    var v := a + b + c;
    var e := p + |v|;
    assert forall k :: p <= k < e ==> s[k] == v[k - p];
    if |b| == 0 {
      assert v == a + c;
      NumberEndOfDigits(s, p, e);
    } else {
      var d := p + |a|;
      var k := d + |b|;
      assert forall j :: p <= j < d ==> s[j] == a[j - p];
      assert forall j :: d <= j < k ==> s[j] == b[j - d];
      assert forall j :: k <= j < e ==> s[j] == c[j - k];
      NumberEndOfDotted(s, p, d, k, e);
    }
  }

  // ------------------------------------------------------ first match

  /** The first of at(i), at(i + 1), ..., at(n - 1) that is a match. */
  function FirstMatchFrom<T>(at: nat -> Option<T>, n: nat, i: nat): (r: Option<T>)
    requires i <= n
    decreases n - i
  {
    if i == n then None
    else
      match at(i)
      case Some(m) => Some(m)
      case None => FirstMatchFrom(at, n, i + 1)
  }

  /** A match found is the one at the first position that matches. */
  lemma {:induction false} FirstMatchIsFirst<T>(at: nat -> Option<T>, n: nat, i: nat)
    requires i <= n && FirstMatchFrom(at, n, i).Some?
    ensures exists k :: i <= k < n && at(k) == FirstMatchFrom(at, n, i) &&
                        forall j :: i <= j < k ==> at(j).None?
    decreases n - i
  {
    if at(i).None? {
      FirstMatchIsFirst(at, n, i + 1);
      var k :| i + 1 <= k < n && at(k) == FirstMatchFrom(at, n, i + 1) &&
               forall j :: i + 1 <= j < k ==> at(j).None?;
      assert forall j :: i <= j < k ==> at(j).None?;
    }
  }

  /** No match found means no position matches. */
  lemma {:induction false} FirstMatchNone<T>(at: nat -> Option<T>, n: nat, i: nat)
    requires i <= n && FirstMatchFrom(at, n, i).None?
    ensures forall j :: i <= j < n ==> at(j).None?
    decreases n - i
  {
    if i < n {
      FirstMatchNone(at, n, i + 1);
    }
  }

  /** When no position matches, nothing is found. */
  lemma {:induction false} FirstMatchNoneIf<T>(at: nat -> Option<T>, n: nat, i: nat)
    requires i <= n
    requires forall j :: i <= j < n ==> at(j).None?
    ensures FirstMatchFrom(at, n, i).None?
    decreases n - i
  {
    if i < n {
      FirstMatchNoneIf(at, n, i + 1);
    }
  }

  // -------------------------------------------------------- threshold

  /** The three groups of a threshold match. */
  datatype ThreshParts = ThreshParts(oper: string, value: string, units: string)

  /** Text the number group `\d*\.*\d+` can match: digits and dots,
      ending in a digit. */
  predicate NumberText(v: string)
  {
    |v| > 0 && IsDigit(v[|v| - 1]) && forall k :: 0 <= k < |v| ==> IsDigit(v[k]) || v[k] == '.'
  }

  /** The three pieces a threshold match cuts from s, and their shapes. */
  lemma ThreshPieces(s: string, i: nat, o: nat, n: nat, u: nat)
    requires i < o < n <= u <= |s|
    requires forall k :: i <= k < o ==> IsLetter(s[k])
    requires forall k :: o <= k < n ==> IsDigit(s[k]) || s[k] == '.'
    requires IsDigit(s[n - 1])
    requires forall k :: n <= k < u ==> IsLetter(s[k])
    ensures AllLetters(s[i..o]) && NumberText(s[o..n]) && AllLetters(s[n..u])
    ensures var m := s[i..o] + s[o..n] + s[n..u];
            i + |m| <= |s| && s[i..i + |m|] == m
  {
    assert s[i..u] == s[i..o] + s[o..n] + s[n..u];
  }

  /** The threshold pattern anchored at i; `unitsRequired` selects the
      variant whose units group is `[A-Za-z]+`. */
  function ThreshAt(s: string, i: nat, unitsRequired: bool): (r: Option<ThreshParts>)
    requires i <= |s|
    ensures r.Some? ==> |r.value.oper| > 0 && AllLetters(r.value.oper) && AllLetters(r.value.units)
    ensures r.Some? ==> NumberText(r.value.value)
    ensures r.Some? && unitsRequired ==> |r.value.units| > 0
    ensures r.Some? ==>
              var m := r.value.oper + r.value.value + r.value.units;
              i + |m| <= |s| && s[i..i + |m|] == m
  {
    if i < |s| && IsLetter(s[i]) then
      var o := LetterEnd(s, i);
      match NumberEnd(s, o)
      case None => None
      case Some(n) =>
        var u := LetterEnd(s, n);
        if unitsRequired && u == n then None
        else
          ThreshPieces(s, i, o, n, u);
          Some(ThreshParts(s[i..o], s[o..n], s[n..u]))
    else None
  }

  /** The threshold pattern anchored at each start position of s. */
  function ThreshStarts(s: string, unitsRequired: bool): nat -> Option<ThreshParts>
  {
    (j: nat) => if j <= |s| then ThreshAt(s, j, unitsRequired) else None
  }

  /** The first threshold match at or after position i: operator letters,
      a number ending in a digit, and unit letters. */
  function FindThreshFrom(s: string, i: nat, unitsRequired: bool): (r: Option<ThreshParts>)
    requires i <= |s|
    ensures r.Some? ==> |r.value.oper| > 0 && AllLetters(r.value.oper) && AllLetters(r.value.units)
    ensures r.Some? ==> NumberText(r.value.value)
    ensures r.Some? && unitsRequired ==> |r.value.units| > 0
  {
    var r := FirstMatchFrom(ThreshStarts(s, unitsRequired), |s|, i);
    assert r.Some? ==> exists k :: i <= k <= |s| && ThreshAt(s, k, unitsRequired) == r by {
      if r.Some? {
        FirstMatchIsFirst(ThreshStarts(s, unitsRequired), |s|, i);
        var k :| i <= k < |s| && ThreshStarts(s, unitsRequired)(k) == r;
        assert ThreshAt(s, k, unitsRequired) == r;
      }
    }
    r
  }

  /** re.findall(pattern, s)[0] for the threshold patterns, None for an
      empty findall. */
  function FindThresh(s: string, unitsRequired: bool): Option<ThreshParts>
  {
    FindThreshFrom(s, 0, unitsRequired)
  }

  /** The first threshold match of s, given that the pattern matches at
      its start and where the three runs end. */
  lemma FindThreshOfRuns(s: string, o: nat, n: nat, unitsRequired: bool)
    requires 0 < |s| && IsLetter(s[0])
    requires LetterEnd(s, 0) == o && NumberEnd(s, o) == Some(n) && LetterEnd(s, n) == |s|
    requires !unitsRequired || |s| > n
    ensures FindThresh(s, unitsRequired) == Some(ThreshParts(s[0..o], s[o..n], s[n..|s|]))
  {
    assert ThreshAt(s, 0, unitsRequired) == Some(ThreshParts(s[0..o], s[o..n], s[n..|s|]));
    assert ThreshStarts(s, unitsRequired)(0) == ThreshAt(s, 0, unitsRequired);
  }

  /** The three pieces of x + y + z, by slice and by index. */
  lemma ConcatPieces(x: string, y: string, z: string)
    ensures var s := x + y + z;
            s[0..|x|] == x && s[|x|..|x| + |y|] == y && s[|x| + |y|..|s|] == z
            && (forall k :: 0 <= k < |x| ==> s[k] == x[k])
            && (forall k :: |x| <= k < |x| + |y| ==> s[k] == y[k - |x|])
            && (forall k :: |x| + |y| <= k < |s| ==> s[k] == z[k - |x| - |y|])
  {
  }

  /** A number written as digits a, dots b and digits c starts with a digit
      or a dot. */
  lemma NumberStart(a: string, b: string, c: string)
    requires AllDigits(a) && AllDots(b) && AllDigits(c) && |c| > 0
    ensures IsDigit((a + b + c)[0]) || (a + b + c)[0] == '.'
  {
    if |a| > 0 { assert (a + b + c)[0] == a[0]; }
    else if |b| > 0 { assert (a + b + c)[0] == b[0]; }
    else { assert (a + b + c)[0] == c[0]; }
  }

  /** The operator run of oper + v + units ends where the number starts. */
  lemma OperRun(oper: string, v: string, units: string)
    requires |oper| > 0 && AllLetters(oper)
    requires |v| > 0 && (IsDigit(v[0]) || v[0] == '.')
    ensures IsLetter((oper + v + units)[0]) && LetterEnd(oper + v + units, 0) == |oper|
  {
    var s := oper + v + units;
    ConcatPieces(oper, v, units);
    assert s[|oper|] == v[0];
    LetterEndAt(s, 0, |oper|);
  }

  /** The number run of oper + (a + b + c) + units takes all of a + b + c. */
  lemma NumberRun(oper: string, a: string, b: string, c: string, units: string)
    requires AllDigits(a) && AllDots(b) && AllDigits(c) && |c| > 0
    requires |units| == 0 || IsLetter(units[0])
    ensures NumberEnd(oper + (a + b + c) + units, |oper|) == Some(|oper| + |a + b + c|)
  {
    var v := a + b + c;
    var s := oper + v + units;
    var p := |oper|;
    assert s[p..p + |v|] == v && (|units| > 0 ==> s[p + |v|] == units[0]) by {
      ConcatPieces(oper, v, units);
    }
    NumberEndOf(s, p, a, b, c);
  }

  /** The units run of oper + v + units runs to the end. */
  lemma UnitsRun(oper: string, v: string, units: string)
    requires AllLetters(units)
    ensures LetterEnd(oper + v + units, |oper| + |v|) == |oper + v + units|
  {
    var s := oper + v + units;
    ConcatPieces(oper, v, units);
    LetterEndAt(s, |oper| + |v|, |s|);
  }

  /** A threshold written as operator letters, a number and unit letters
      is taken apart into exactly those three pieces. */
  lemma ThreshRoundTrip(oper: string, a: string, b: string, c: string, units: string,
                        unitsRequired: bool)
    requires |oper| > 0 && AllLetters(oper)
    requires AllDigits(a) && AllDots(b) && AllDigits(c) && |c| > 0
    requires AllLetters(units) && (unitsRequired ==> |units| > 0)
    ensures FindThresh(oper + a + b + c + units, unitsRequired) ==
            Some(ThreshParts(oper, a + b + c, units))
  {
    var v := a + b + c;
    var s := oper + v + units;
    assert oper + a + b + c + units == s;
    NumberStart(a, b, c);
    OperRun(oper, v, units);
    NumberRun(oper, a, b, c, units);
    UnitsRun(oper, v, units);
    FindThreshOfRuns(s, |oper|, |oper| + |v|, unitsRequired);
    ConcatPieces(oper, v, units);
  }

  /** The common case: operator letters, digits and unit letters. */
  lemma DigitsThreshRoundTrip(oper: string, digits: string, units: string, unitsRequired: bool)
    requires |oper| > 0 && AllLetters(oper)
    requires |digits| > 0 && AllDigits(digits)
    requires AllLetters(units) && (unitsRequired ==> |units| > 0)
    ensures FindThresh(oper + digits + units, unitsRequired) == Some(ThreshParts(oper, digits, units))
  {
    var s := oper + digits + units;
    var n := |oper| + |digits|;
    assert IsLetter(s[0]) && LetterEnd(s, 0) == |oper| by {
      OperRun(oper, digits, units);
    }
    assert NumberEnd(s, |oper|) == Some(n) by {
      ConcatPieces(oper, digits, units);
      assert n < |s| ==> s[n] == units[0];
      NumberEndOfDigits(s, |oper|, n);
    }
    assert LetterEnd(s, n) == |s| by {
      UnitsRun(oper, digits, units);
    }
    assert s[0..|oper|] == oper && s[|oper|..n] == digits && s[n..|s|] == units by {
      ConcatPieces(oper, digits, units);
    }
    FindThreshOfRuns(s, |oper|, n, unitsRequired);
  }

  /** Without a single digit there is no threshold match at all. */
  lemma NoDigitNoThresh(s: string, i: nat, unitsRequired: bool)
    requires i <= |s|
    requires forall k :: 0 <= k < |s| ==> !IsDigit(s[k])
    ensures FindThreshFrom(s, i, unitsRequired).None?
  {
    var at := ThreshStarts(s, unitsRequired);
    forall j | i <= j < |s| ensures at(j).None? {
      if IsLetter(s[j]) {
        assert NumberEnd(s, LetterEnd(s, j)).None?;
      }
    }
    FirstMatchNoneIf(at, |s|, i);
  }

  // ------------------------------------------------------------ level

  /** The two groups of a level/accumulation match. */
  datatype LevelParts = LevelParts(value: string, units: string)

  /** The two pieces a level match cuts from s, and their shapes. */
  lemma LevelPieces(s: string, i: nat, n: nat, u: nat)
    requires i < n < u <= |s|
    requires forall k :: i <= k < n ==> IsDigit(s[k]) || s[k] == '.'
    requires IsDigit(s[n - 1])
    requires forall k :: n <= k < u ==> IsLetter(s[k])
    ensures NumberText(s[i..n]) && AllLetters(s[n..u])
    ensures var m := s[i..n] + s[n..u];
            i + |m| <= |s| && s[i..i + |m|] == m
  {
    assert s[i..u] == s[i..n] + s[n..u];
  }

  /** The level pattern anchored at i. */
  function LevelAt(s: string, i: nat): (r: Option<LevelParts>)
    requires i <= |s|
    ensures r.Some? ==> NumberText(r.value.value)
    ensures r.Some? ==> |r.value.units| > 0 && AllLetters(r.value.units)
    ensures r.Some? ==>
              var m := r.value.value + r.value.units;
              i + |m| <= |s| && s[i..i + |m|] == m
  {
    match NumberEnd(s, i)
    case None => None
    case Some(n) =>
      var u := LetterEnd(s, n);
      if u == n then None
      else
        LevelPieces(s, i, n, u);
        Some(LevelParts(s[i..n], s[n..u]))
  }

  /** The level pattern anchored at each start position of s. */
  function LevelStarts(s: string): nat -> Option<LevelParts>
  {
    (j: nat) => if j <= |s| then LevelAt(s, j) else None
  }

  /** The first level match at or after position i: a number ending in a
      digit, then at least one letter. */
  function FindLevelFrom(s: string, i: nat): (r: Option<LevelParts>)
    requires i <= |s|
    ensures r.Some? ==> NumberText(r.value.value)
    ensures r.Some? ==> |r.value.units| > 0 && AllLetters(r.value.units)
  {
    var r := FirstMatchFrom(LevelStarts(s), |s|, i);
    assert r.Some? ==> exists k :: i <= k <= |s| && LevelAt(s, k) == r by {
      if r.Some? {
        FirstMatchIsFirst(LevelStarts(s), |s|, i);
        var k :| i <= k < |s| && LevelStarts(s)(k) == r;
        assert LevelAt(s, k) == r;
      }
    }
    r
  }

  /** re.findall(r'(\d*\.*\d+)([A-Za-z]+)', s)[0], None for an empty findall. */
  function FindLevel(s: string): Option<LevelParts>
  {
    FindLevelFrom(s, 0)
  }

  /** The first level match of s, given that the pattern matches at its
      start and where its two runs end. */
  lemma FindLevelOfRuns(s: string, n: nat)
    requires NumberEnd(s, 0) == Some(n) && LetterEnd(s, n) == |s| && |s| > n
    ensures FindLevel(s) == Some(LevelParts(s[0..n], s[n..|s|]))
  {
    assert LevelAt(s, 0) == Some(LevelParts(s[0..n], s[n..|s|]));
    assert LevelStarts(s)(0) == LevelAt(s, 0);
  }

  /** The number run of a + b + c + units takes all of a + b + c, and
      the units run takes the rest. */
  lemma LevelRuns(a: string, b: string, c: string, units: string)
    requires AllDigits(a) && AllDots(b) && AllDigits(c) && |c| > 0
    requires |units| > 0 && AllLetters(units)
    ensures var s := a + b + c + units;
            NumberEnd(s, 0) == Some(|a + b + c|) && LetterEnd(s, |a + b + c|) == |s|
            && s[0..|a + b + c|] == a + b + c && s[|a + b + c|..|s|] == units
  {
    var v := a + b + c;
    var s := v + units;
    assert NumberEnd(s, 0) == Some(|v|) by {
      assert s[0..|v|] == v;
      assert s[|v|] == units[0];
      NumberEndOf(s, 0, a, b, c);
    }
    assert LetterEnd(s, |v|) == |s| by {
      assert forall k :: |v| <= k < |s| ==> s[k] == units[k - |v|];
      LetterEndAt(s, |v|, |s|);
    }
    assert s[0..|v|] == v && s[|v|..|s|] == units;
  }

  /** A level written as a number followed by unit letters is taken apart
      into exactly those two pieces. */
  lemma LevelRoundTrip(a: string, b: string, c: string, units: string)
    requires AllDigits(a) && AllDots(b) && AllDigits(c) && |c| > 0
    requires |units| > 0 && AllLetters(units)
    ensures FindLevel(a + b + c + units) == Some(LevelParts(a + b + c, units))
  {
    LevelRuns(a, b, c, units);
    FindLevelOfRuns(a + b + c + units, |a + b + c|);
  }

  /** The common case: digits, then unit letters. */
  lemma DigitsLevelRoundTrip(a: string, units: string)
    requires AllDigits(a) && |a| > 0
    requires |units| > 0 && AllLetters(units)
    ensures FindLevel(a + units) == Some(LevelParts(a, units))
  {
    LevelRoundTrip("", "", a, units);
    assert "" + "" + a + units == a + units;
    assert "" + "" + a == a;
  }

  /** The surface level "L0" has no letters after its digit, so findall
      comes back empty. */
  lemma SurfaceLevelNoMatch()
    ensures FindLevel("L0").None?
  {
    var s := "L0";
    assert LevelAt(s, 0).None? by {
      assert DigitEnd(s, 0) == 0 && DotEnd(s, 0) == 0;
    }
    assert LevelAt(s, 1).None? by {
      assert DigitEnd(s, 2) == 2;
      assert DigitEnd(s, 1) == 2;
      assert LetterEnd(s, 2) == 2;
    }
  }
}
