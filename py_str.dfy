/**
 * The Python string and sequence built-ins that the plotting scripts lean on
 * (str.strip, str.lstrip, str.zfill, str.replace, str.upper, str.join over
 * filter(None, ...), str(int), os.path.basename, os.path.splitext, sorted,
 * substring tests), restricted to ASCII text.
 */
module PyStr {

  // ---------------------------------------------------------------- chars

  predicate IsLetter(c: char) { ('A' <= c <= 'Z') || ('a' <= c <= 'z') }

  predicate IsDigit(c: char) { '0' <= c <= '9' }

  /** str.isspace() on the ASCII range: space, \t \n \v \f \r and \x1c-\x1f. */
  predicate IsSpace(c: char) {
    c == ' ' || (9 <= c as int <= 13) || (28 <= c as int <= 31)
  }

  predicate AllDigits(s: string) { forall i :: 0 <= i < |s| ==> IsDigit(s[i]) }

  predicate AllLetters(s: string) { forall i :: 0 <= i < |s| ==> IsLetter(s[i]) }

  /** str.lower() on ASCII letters. */
  function Lower(s: string): (r: string)
    ensures |r| == |s|
    ensures forall i :: 0 <= i < |s| ==>
              r[i] == (if 'A' <= s[i] <= 'Z' then (s[i] as int + 32) as char else s[i])
  {
    if |s| == 0 then []
    else [if 'A' <= s[0] <= 'Z' then (s[0] as int + 32) as char else s[0]] + Lower(s[1..])
  }

  /** str.upper() on ASCII letters. */
  function Upper(s: string): (r: string)
    ensures |r| == |s|
    ensures forall i :: 0 <= i < |s| ==>
              r[i] == (if 'a' <= s[i] <= 'z' then (s[i] as int - 32) as char else s[i])
  {
    if |s| == 0 then ""
    else [if 'a' <= s[0] <= 'z' then (s[0] as int - 32) as char else s[0]] + Upper(s[1..])
  }

  // -------------------------------------------------------------- strip

  /** str.lstrip(): drops leading whitespace. */
  function LStripSpace(s: string): (r: string)
    ensures |r| <= |s| && r == s[|s| - |r|..]
    ensures r == [] || !IsSpace(r[0])
    ensures forall i :: 0 <= i < |s| - |r| ==> IsSpace(s[i])
  {
    if |s| > 0 && IsSpace(s[0]) then LStripSpace(s[1..]) else s
  }

  /** str.rstrip(): drops trailing whitespace. */
  function RStripSpace(s: string): (r: string)
    ensures |r| <= |s| && r == s[..|r|]
    ensures r == [] || !IsSpace(r[|r| - 1])
    ensures forall i :: |r| <= i < |s| ==> IsSpace(s[i])
  {
    if |s| > 0 && IsSpace(s[|s| - 1]) then RStripSpace(s[..|s| - 1]) else s
  }

  /** str.strip(). */
  function Strip(s: string): (r: string)
  {
    RStripSpace(LStripSpace(s))
  }

  /** str.lstrip(c) for a single character c. */
  function LStripChar(s: string, c: char): (r: string)
    ensures |r| <= |s| && r == s[|s| - |r|..]
    ensures r == [] || r[0] != c
    ensures forall i :: 0 <= i < |s| - |r| ==> s[i] == c
  {
    if |s| > 0 && s[0] == c then LStripChar(s[1..], c) else s
  }

  // -------------------------------------------------------------- zfill

  function Repeat(c: char, n: nat): (r: string)
    ensures |r| == n && forall i :: 0 <= i < n ==> r[i] == c
  {
    if n == 0 then "" else [c] + Repeat(c, n - 1)
  }

  function Max(a: int, b: int): int { if a >= b then a else b }

  /** str.zfill(width): left-pads with '0' to `width`, keeping a leading
      sign in front. */
  function ZFill(s: string, width: nat): (r: string)
    ensures |r| == Max(|s|, width)
    ensures |s| >= width ==> r == s
    ensures (s == [] || (s[0] != '+' && s[0] != '-')) ==>
              r[|r| - |s|..] == s && forall i :: 0 <= i < |r| - |s| ==> r[i] == '0'
  {
    if |s| >= width then s
    else if |s| > 0 && (s[0] == '+' || s[0] == '-') then [s[0]] + Repeat('0', width - |s|) + s[1..]
    else Repeat('0', width - |s|) + s
  }

  /** Stripping the padding that zfill added gives back a text that had no
      leading zero and no sign: zero padding and lstrip('0') undo each other. */
  lemma {:induction false} ZFillStripRoundTrip(s: string, width: nat)
    requires s == [] || (s[0] != '0' && s[0] != '+' && s[0] != '-')
    ensures LStripChar(ZFill(s, width), '0') == s
  {
    if |s| < width {
      assert ZFill(s, width) == Repeat('0', width - |s|) + s;
      ZerosThenStrip(s, width - |s|);
    } else {
      assert ZFill(s, width) == s;
    }
  }

  lemma {:induction false} ZerosThenStrip(s: string, n: nat)
    requires s == [] || s[0] != '0'
    ensures LStripChar(Repeat('0', n) + s, '0') == s
  {
    if n > 0 {
      var t, u := Repeat('0', n) + s, Repeat('0', n - 1) + s;
      assert t == ['0'] + u;
      assert t[0] == '0' && t[1..] == u;
      assert LStripChar(t, '0') == LStripChar(u, '0');
      ZerosThenStrip(s, n - 1);
    }
  }

  // ------------------------------------------------------------ decimal

  function DigitChar(d: nat): (c: char)
    requires d < 10
    ensures IsDigit(c) && c as int - '0' as int == d
  {
    ('0' as int + d) as char
  }

  /** str(n) for a natural number. */
  function NatToDecimal(n: nat): (r: string)
    ensures |r| >= 1 && AllDigits(r)
    ensures |r| > 1 ==> r[0] != '0'
    decreases n
  {
    if n < 10 then [DigitChar(n)] else NatToDecimal(n / 10) + [DigitChar(n % 10)]
  }

  /** str(i) for any integer. */
  function IntToDecimal(i: int): string
  {
    if i < 0 then "-" + NatToDecimal(-i) else NatToDecimal(i)
  }

  /** The number a string of decimal digits denotes (leading zeros allowed). */
  function DecimalValue(s: string): nat
    requires AllDigits(s)
  {
    if |s| == 0 then 0
    else DecimalValue(s[..|s| - 1]) * 10 + (s[|s| - 1] as int - '0' as int)
  }

  lemma {:induction false} DecimalRoundTrip(n: nat)
    ensures DecimalValue(NatToDecimal(n)) == n
    decreases n
  {
    if n >= 10 {
      DecimalRoundTrip(n / 10);
      var r := NatToDecimal(n);
      assert r[..|r| - 1] == NatToDecimal(n / 10);
    }
  }

  lemma {:induction false} LeadingZerosValue(s: string, k: nat)
    requires AllDigits(s)
    ensures AllDigits(Repeat('0', k) + s)
    ensures DecimalValue(Repeat('0', k) + s) == DecimalValue(s)
    decreases |s|
  {
    var z := Repeat('0', k);
    if |s| == 0 {
      ZerosValue(k);
      assert z + s == z;
    } else {
      LeadingZerosValue(s[..|s| - 1], k);
      assert (z + s)[..|z + s| - 1] == z + s[..|s| - 1];
    }
  }

  lemma {:induction false} ZerosValue(k: nat)
    ensures DecimalValue(Repeat('0', k)) == 0
  {
    if k > 0 {
      var z := Repeat('0', k);
      assert z[..k - 1] == Repeat('0', k - 1);
      ZerosValue(k - 1);
    }
  }

  /** f'{n:03}' and '%03d' % n for a natural number. */
  function Pad3(n: nat): (r: string)
    ensures AllDigits(r) && |r| >= 3
  {
    ZFill(NatToDecimal(n), 3)
  }

  /** The zero padded counter still denotes the counter, so distinct counters
      give distinct padded strings. */
  lemma Pad3Value(n: nat)
    ensures DecimalValue(Pad3(n)) == n
  {
    var d := NatToDecimal(n);
    DecimalRoundTrip(n);
    if |d| < 3 {
      LeadingZerosValue(d, 3 - |d|);
    }
  }

  /** "p" + da + "_" + x and "p" + db + "_" + y differ for distinct digit
      strings da and db: where the shorter one ends, its '_' meets a digit
      of the longer one. */
  lemma TaggedDigitsDistinct(da: string, db: string, x: string, y: string)
    requires AllDigits(da) && AllDigits(db) && da != db
    ensures "p" + da + "_" + x != "p" + db + "_" + y
  {
    var sa, sb := "p" + da + "_" + x, "p" + db + "_" + y;
    if |da| == |db| {
      assert sa[1..1 + |da|] == da && sb[1..1 + |db|] == db;
    } else if |da| < |db| {
      assert sa[1 + |da|] == '_' != db[|da|] == sb[1 + |da|];
    } else {
      assert sb[1 + |db|] == '_' != da[|db|] == sa[1 + |db|];
    }
  }

  // ------------------------------------------------------------ join

  /** sep.join(parts). */
  function Join(parts: seq<string>, sep: string): string
  {
    if |parts| == 0 then ""
    else if |parts| == 1 then parts[0]
    else parts[0] + sep + Join(parts[1..], sep)
  }

  /** filter(None, parts) on a list of strings: the non-empty ones, in order. */
  function NonEmpty(parts: seq<string>): (r: seq<string>)
    ensures forall i :: 0 <= i < |r| ==> r[i] != ""
    ensures forall s :: s in r <==> s in parts && s != ""
  {
    if |parts| == 0 then []
    else if parts[0] == "" then NonEmpty(parts[1..])
    else [parts[0]] + NonEmpty(parts[1..])
  }

  /** sep.join(filter(None, parts)). */
  function JoinNonEmpty(parts: seq<string>, sep: string): string
  {
    Join(NonEmpty(parts), sep)
  }

  /** When no part is empty, filter(None, ...) keeps them all. */
  lemma {:induction false} NonEmptyKeepsAll(parts: seq<string>)
    requires forall i :: 0 <= i < |parts| ==> parts[i] != ""
    ensures NonEmpty(parts) == parts
  {
    if |parts| > 0 {
      NonEmptyKeepsAll(parts[1..]);
      assert [parts[0]] + parts[1..] == parts;
    }
  }

  lemma JoinCons(x: string, rest: seq<string>, sep: string)
    requires |rest| > 0
    ensures Join([x] + rest, sep) == x + sep + Join(rest, sep)
  {
    assert ([x] + rest)[1..] == rest;
  }

  lemma NonEmptyCons(x: string, rest: seq<string>)
    ensures NonEmpty([x] + rest) == (if x == "" then [] else [x]) + NonEmpty(rest)
  {
    assert ([x] + rest)[1..] == rest;
  }

  // ------------------------------------------------------- substrings

  predicate StartsWith(s: string, prefix: string)
  {
    |prefix| <= |s| && s[..|prefix|] == prefix
  }

  predicate EndsWith(s: string, suffix: string)
  {
    |suffix| <= |s| && s[|s| - |suffix|..] == suffix
  }

  lemma EndsWithAppend(x: string, y: string, z: string)
    requires EndsWith(x, y)
    ensures EndsWith(x + z, y + z)
  {
    assert (x + z)[|x + z| - |y + z|..] == x[|x| - |y|..] + z;
  }

  lemma EndsWithOwn(x: string, y: string)
    ensures EndsWith(x + y, y)
  {
    assert (x + y)[|x + y| - |y|..] == y;
  }

  lemma EndsWithShorter(x: string, p: string, y: string)
    requires EndsWith(x, p + y)
    ensures EndsWith(x, y)
  {
    assert x[|x| - |y|..] == x[|x| - |p + y|..][|p|..];
  }

  /** `needle in hay` for strings. */
  predicate Contains(hay: string, needle: string)
    decreases |hay|
  {
    StartsWith(hay, needle) || (|hay| > 0 && Contains(hay[1..], needle))
  }

  /** str.replace(pat, rep): every non-overlapping occurrence, left to right. */
  function ReplaceAll(s: string, pat: string, rep: string): (r: string)
    requires |pat| > 0
    decreases |s|
  {
    if |s| < |pat| then s
    else if s[..|pat|] == pat then rep + ReplaceAll(s[|pat|..], pat, rep)
    else [s[0]] + ReplaceAll(s[1..], pat, rep)
  }

  /** Replacing a text that does not occur changes nothing. */
  lemma {:induction false} ReplaceAbsent(s: string, pat: string, rep: string)
    requires |pat| > 0 && !Contains(s, pat)
    ensures ReplaceAll(s, pat, rep) == s
    decreases |s|
  {
    if |s| >= |pat| {
      ReplaceAbsent(s[1..], pat, rep);
      assert [s[0]] + s[1..] == s;
    }
  }

  // ------------------------------------------------------- os.path

  /** str.rfind(c): index of the last occurrence, -1 when absent. */
  function LastIndexOf(s: string, c: char): (r: int)
    ensures -1 <= r < |s|
    ensures r >= 0 ==> s[r] == c
    ensures forall i :: r < i < |s| ==> s[i] != c
  {
    if |s| == 0 then -1
    else if s[|s| - 1] == c then |s| - 1
    else LastIndexOf(s[..|s| - 1], c)
  }

  /** os.path.join(a, b): an absolute b replaces a; otherwise a '/' is
      inserted unless a is empty or already ends with one. */
  function PathJoin(a: string, b: string): (r: string)
    ensures StartsWith(b, "/") ==> r == b
    ensures !StartsWith(b, "/") ==> EndsWith(r, b)
  {
    if StartsWith(b, "/") then b
    else if a == [] || a[|a| - 1] == '/' then a + b
    else a + "/" + b
  }

  /** Joining onto one directory keeps relative names apart. */
  lemma PathJoinInjective(a: string, b1: string, b2: string)
    requires !StartsWith(b1, "/") && !StartsWith(b2, "/")
    requires PathJoin(a, b1) == PathJoin(a, b2)
    ensures b1 == b2
  {
    var pre := if a == [] || a[|a| - 1] == '/' then a else a + "/";
    assert PathJoin(a, b1) == pre + b1 && PathJoin(a, b2) == pre + b2;
    assert b1 == (pre + b1)[|pre|..];
  }

  /** os.path.basename. */
  function BaseName(p: string): string
  {
    p[LastIndexOf(p, '/') + 1..]
  }

  predicate AllDots(s: string) { forall i :: 0 <= i < |s| ==> s[i] == '.' }

  /** os.path.splitext(p)[0]: cut at the last dot of the final component,
      unless every character before that dot in the component is a dot. */
  function SplitExtRoot(p: string): string
  {
    var sep := LastIndexOf(p, '/');
    var dot := LastIndexOf(p, '.');
    if dot > sep && !AllDots(p[sep + 1..dot]) then p[..dot] else p
  }

  /** Swapping the extension of "<stem>.xml" for ".png": the stem survives
      exactly when its last path component has a character other than '.'. */
  lemma SplitExtOfXml(stem: string)
    ensures SplitExtRoot(stem + ".xml") == stem <==> !AllDots(BaseName(stem))
  {
    var p := stem + ".xml";
    var n := |stem|;
    assert p[n] == '.' && p[n + 1] == 'x' && p[n + 2] == 'm' && p[n + 3] == 'l' && |p| == n + 4;
    LastIndexOfPinned(p, '.', n);
    var sep := LastIndexOf(stem, '/');
    assert LastIndexOf(p, '/') == sep by {
      if sep >= 0 {
        assert p[sep] == '/';
        assert forall i :: sep < i < |p| ==> p[i] != '/' by {
          forall i | sep < i < |p| ensures p[i] != '/' {
            if i < n { assert p[i] == stem[i]; }
          }
        }
        LastIndexOfPinned(p, '/', sep);
      } else {
        assert forall i :: 0 <= i < |p| ==> p[i] != '/' by {
          forall i | 0 <= i < |p| ensures p[i] != '/' {
            if i < n { assert p[i] == stem[i]; }
          }
        }
        LastIndexOfAbsent(p, '/');
      }
    }
    assert p[sep + 1..n] == BaseName(stem);
    assert p[..n] == stem;
  }

  lemma LastIndexOfPinned(s: string, c: char, k: int)
    requires 0 <= k < |s| && s[k] == c
    requires forall i :: k < i < |s| ==> s[i] != c
    ensures LastIndexOf(s, c) == k
  {
    var r := LastIndexOf(s, c);
    if r < k {
      LastIndexOfBelow(s, c, k);
    }
  }

  lemma {:induction false} LastIndexOfBelow(s: string, c: char, k: int)
    requires 0 <= k < |s| && s[k] == c
    ensures LastIndexOf(s, c) >= k
    decreases |s|
  {
    if s[|s| - 1] != c {
      LastIndexOfBelow(s[..|s| - 1], c, k);
    }
  }

  lemma {:induction false} LastIndexOfAbsent(s: string, c: char)
    requires forall i :: 0 <= i < |s| ==> s[i] != c
    ensures LastIndexOf(s, c) == -1
    decreases |s|
  {
    if |s| > 0 {
      LastIndexOfAbsent(s[..|s| - 1], c);
    }
  }

  // ------------------------------------------------------------ split

  /** str.count(c) for one character. */
  function CountChar(s: string, c: char): (n: nat)
    ensures n == 0 <==> c !in s
    ensures n <= |s|
  {
    if |s| == 0 then 0 else (if s[0] == c then 1 else 0) + CountChar(s[1..], c)
  }

  /** str.split(c) for a one-character separator: the pieces between the
      separators, one more piece than there are separators. */
  function Split(s: string, c: char): (r: seq<string>)
    ensures |r| == CountChar(s, c) + 1
    decreases |s|
  {
    if |s| == 0 then [""]
    else
      var rest := Split(s[1..], c);
      if s[0] == c then [""] + rest
      else [[s[0]] + rest[0]] + rest[1..]
  }

  /** Joining the pieces with the separator gives the text back. */
  lemma {:induction false} SplitJoinRoundTrip(s: string, c: char)
    ensures Join(Split(s, c), [c]) == s
    decreases |s|
  {
    if |s| > 0 {
      SplitJoinRoundTrip(s[1..], c);
      SplitJoinStep(s, c);
    }
  }

  /** One character more in front of a text whose pieces join back. */
  lemma SplitJoinStep(s: string, c: char)
    requires |s| > 0 && Join(Split(s[1..], c), [c]) == s[1..]
    ensures Join(Split(s, c), [c]) == s
  {
    if s[0] == c {
      SplitJoinAtSep(s, c);
    } else if |Split(s[1..], c)| == 1 {
      SplitJoinOnePiece(s, c);
    } else {
      SplitJoinMorePieces(s, c);
    }
  }

  lemma SplitJoinAtSep(s: string, c: char)
    requires |s| > 0 && s[0] == c && Join(Split(s[1..], c), [c]) == s[1..]
    ensures Join(Split(s, c), [c]) == s
  {
    var rest := Split(s[1..], c);
    SplitAtSep(s, c);
    JoinCons("", rest, [c]);
    calc {
      Join(Split(s, c), [c]);
      Join([""] + rest, [c]);
      "" + [c] + Join(rest, [c]);
      { assert "" + [c] == [c]; }
      [c] + s[1..];
      { assert s == [s[0]] + s[1..]; }
      s;
    }
  }

  lemma SplitJoinOnePiece(s: string, c: char)
    requires |s| > 0 && s[0] != c && |Split(s[1..], c)| == 1
    requires Join(Split(s[1..], c), [c]) == s[1..]
    ensures Join(Split(s, c), [c]) == s
  {
    SplitAtOther(s, c);
    assert s == [s[0]] + s[1..];
  }

  lemma SplitJoinMorePieces(s: string, c: char)
    requires |s| > 0 && s[0] != c && |Split(s[1..], c)| >= 2
    requires Join(Split(s[1..], c), [c]) == s[1..]
    ensures Join(Split(s, c), [c]) == s
  {
    SplitAtOther(s, c);
    SplitJoinGlued(s[0], Split(s[1..], c), c);
    assert s == [s[0]] + s[1..];
  }

  lemma SplitAtSep(s: string, c: char)
    requires |s| > 0 && s[0] == c
    ensures Split(s, c) == [""] + Split(s[1..], c)
  {
  }

  lemma SplitAtOther(s: string, c: char)
    requires |s| > 0 && s[0] != c
    ensures Split(s, c) == [[s[0]] + Split(s[1..], c)[0]] + Split(s[1..], c)[1..]
  {
  }

  lemma SplitJoinGlued(x: char, rest: seq<string>, c: char)
    requires |rest| >= 2
    ensures Join([[x] + rest[0]] + rest[1..], [c]) == [x] + Join(rest, [c])
  {
    var h, tail := rest[0], rest[1..];
    var j := Join(tail, [c]);
    JoinCons([x] + h, tail, [c]);
    JoinCons(h, tail, [c]);
    assert [h] + tail == rest;
    SeqAssoc4([x], h, [c], j);
  }

  lemma SeqAssoc4(a: string, b: string, c: string, d: string)
    ensures (a + b) + c + d == a + (b + c + d)
  {
  }

  /** A text without the separator is its only piece. */
  lemma {:induction false} SplitNoSep(s: string, c: char)
    requires c !in s
    ensures Split(s, c) == [s]
    decreases |s|
  {
    if |s| > 0 {
      assert s[1..] == s[1..] && c !in s[1..];
      SplitNoSep(s[1..], c);
      assert [s[0]] + s[1..] == s;
    }
  }

  /** A text with one separator splits into the parts around it. */
  lemma {:induction false} SplitOneSep(a: string, b: string, c: char)
    requires c !in a && c !in b
    ensures Split(a + [c] + b, c) == [a, b]
    decreases |a|
  {
    var s := a + [c] + b;
    if |a| == 0 {
      assert s[1..] == b && s[0] == c;
      SplitAtSep(s, c);
      SplitNoSep(b, c);
    } else {
      assert s[1..] == a[1..] + [c] + b && s[0] == a[0] && a[0] != c;
      SplitAtOther(s, c);
      assert Split(s[1..], c) == [a[1..], b] by {
        SplitOneSep(a[1..], b, c);
      }
      assert [a[0]] + a[1..] == a;
    }
  }

  /** The text is split around its only separator. */
  lemma OneSepSplits(s: string, c: char)
    requires CountChar(s, c) == 1
    ensures exists k :: 0 <= k < |s| && s[k] == c && c !in s[..k] && c !in s[k + 1..]
                        && Split(s, c) == [s[..k], s[k + 1..]]
  {
    var k := OneSepAt(s, c);
    var a, b := s[..k], s[k + 1..];
    assert Split(s, c) == [a, b] by {
      assert s == a + [c] + b;
      SplitOneSep(a, b, c);
    }
  }

  /** The position of the only separator. */
  lemma {:induction false} OneSepAt(s: string, c: char) returns (k: nat)
    requires CountChar(s, c) == 1
    ensures k < |s| && s[k] == c && c !in s[..k] && c !in s[k + 1..]
    decreases |s|
  {
    if s[0] == c {
      k := 0;
      assert s[k + 1..] == s[1..];
    } else {
      var j := OneSepAt(s[1..], c);
      k := j + 1;
      assert s[..k] == [s[0]] + s[1..][..j];
      assert s[k + 1..] == s[1..][j + 1..];
    }
  }
}
