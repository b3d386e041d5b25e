/** Reading an Excellon-style drill file (`read_drlfile`) and ordering its holes
    along the Z-order curve (`sort_drill_list_by_morton_num`). The file is given
    as its sequence of lines. */
module DrillFile {
  import opened Geometry

  datatype Option<T> = None | Some(value: T)

  // ---------------------------------------------------------------------------
  // Character classes and scanning

  predicate IsDigit(c: char)
  {
    '0' <= c <= '9'
  }

  /** `isspace` in the C locale: space, tab, newline, vertical tab, form feed, return. */
  predicate IsSpace(c: char)
  {
    c == ' ' || ('\t' <= c <= '\r')
  }

  /** The scan set `%[-0-9]`. */
  predicate InCoordSet(c: char)
  {
    c == '-' || IsDigit(c)
  }

  /** End of the longest run of digits starting at i. */
  function DigitsEnd(s: string, i: nat): (j: nat)
    requires i <= |s|
    ensures i <= j <= |s|
    ensures forall k | i <= k < j :: IsDigit(s[k])
    ensures j < |s| ==> !IsDigit(s[j])
    decreases |s| - i
  {
    if i < |s| && IsDigit(s[i]) then DigitsEnd(s, i + 1) else i
  }

  /** End of the longest run of `%[-0-9]` characters starting at i. */
  function CoordSetEnd(s: string, i: nat): (j: nat)
    requires i <= |s|
    ensures i <= j <= |s|
    ensures forall k | i <= k < j :: InCoordSet(s[k])
    ensures j < |s| ==> !InCoordSet(s[j])
    decreases |s| - i
  {
    if i < |s| && InCoordSet(s[i]) then CoordSetEnd(s, i + 1) else i
  }

  /** End of the white space starting at i, as a `scanf` conversion skips it. */
  function SpacesEnd(s: string, i: nat): (j: nat)
    requires i <= |s|
    ensures i <= j <= |s|
    ensures forall k | i <= k < j :: IsSpace(s[k])
    ensures j < |s| ==> !IsSpace(s[j])
    decreases |s| - i
  {
    if i < |s| && IsSpace(s[i]) then SpacesEnd(s, i + 1) else i
  }

  /** Index after an optional '+' or '-' at i. */
  function SkipSign(s: string, i: nat): (j: nat)
    requires i <= |s|
    ensures i <= j <= |s|
  {
    if i < |s| && (s[i] == '+' || s[i] == '-') then i + 1 else i
  }

  /** `tolower` in the C locale. */
  function ToLower(c: char): char
  {
    if 'A' <= c <= 'Z' then (c as int + 32) as char else c
  }

  /** The characters of s from i on begin with word, ignoring case. */
  predicate CaseInsensitiveAt(s: string, i: nat, word: string)
  {
    i + |word| <= |s| && forall k | 0 <= k < |word| :: ToLower(s[i + k]) == word[k]
  }

  /** `%f` converts something at i, as `strtod` does: an optional sign, then a
      digit, a point and a digit, or "inf" or "nan" in any case (which also
      covers "infinity" and "nan(...)"). */
  predicate FloatStartsAt(s: string, i: nat)
    requires i <= |s|
  {
    var j := SkipSign(s, i);
    (j < |s| && IsDigit(s[j])) || (j + 1 < |s| && s[j] == '.' && IsDigit(s[j + 1])) ||
    CaseInsensitiveAt(s, j, "inf") || CaseInsensitiveAt(s, j, "nan")
  }

  /** `sscanf(buf, "T%*dC%f", &v1) >= 1`: a tool-select line. */
  predicate IsToolLine(line: string)
  {
    |line| > 0 && line[0] == 'T' &&
    var j := SkipSign(line, SpacesEnd(line, 1));
    var k := DigitsEnd(line, j);
    k > j && k < |line| && line[k] == 'C' && FloatStartsAt(line, SpacesEnd(line, k + 1))
  }

  /** A line "T", a tool number, "C", then a value that does not start with
      white space selects the drill list exactly when `%f` converts something at
      the start of the value. */
  lemma ToolLineSelects(ds: string, v: string)
    requires |ds| > 0 && AllDigits(ds)
    requires |v| > 0 && !IsSpace(v[0])
    ensures IsToolLine("T" + ds + "C" + v) <==> FloatStartsAt(v, 0)
  {
    var line := "T" + ds + "C" + v;
    var k := |ds| + 1;
    assert forall m | 1 <= m < k :: line[m] == ds[m - 1];
    assert line[k] == 'C';
    assert line[k + 1..] == v;
    ToolLineAt(line, k);
    assert SpacesEnd(line, k + 1) == k + 1;
    FloatStartsShift(line, k + 1, v);
  }

  /** Whether `%f` converts at i depends only on the characters from i on. */
  lemma FloatStartsShift(s: string, i: nat, v: string)
    requires i <= |s| && s[i..] == v
    ensures FloatStartsAt(s, i) <==> FloatStartsAt(v, 0)
  {
    var j := SkipSign(s, i);
    assert j - i == SkipSign(v, 0);
    forall m | j - i <= m < |v|
      ensures v[m] == s[i + m]
    {
    }
    assert CaseInsensitiveAt(s, j, "inf") <==> CaseInsensitiveAt(v, j - i, "inf");
    assert CaseInsensitiveAt(s, j, "nan") <==> CaseInsensitiveAt(v, j - i, "nan");
  }

  /** `%f` converts an infinity and a not-a-number in any case, with or
      without a sign, as well as ordinary numbers; it does not convert a
      letter, a lone point or a cut-off "in". */
  lemma FloatStartsExamples()
    ensures FloatStartsAt("INF", 0) && FloatStartsAt("-Infinity", 0) && FloatStartsAt("nan", 0)
    ensures FloatStartsAt("0.8", 0) && FloatStartsAt(".5", 0) && FloatStartsAt("+3", 0)
    ensures !FloatStartsAt("x", 0) && !FloatStartsAt(".", 0) && !FloatStartsAt("IN", 0)
  {
    assert CaseInsensitiveAt("INF", 0, "inf");
    assert SkipSign("-Infinity", 0) == 1 && CaseInsensitiveAt("-Infinity", 1, "inf");
    assert CaseInsensitiveAt("nan", 0, "nan");
    assert !CaseInsensitiveAt("x", 0, "inf") && !CaseInsensitiveAt("x", 0, "nan");
  }

  /** The scan of a line "T", digits up to k, then anything: no white space or
      sign to skip, and the digit run ends at k. */
  lemma ToolLineAt(line: string, k: nat)
    requires 1 < k <= |line| && line[0] == 'T'
    requires forall m | 1 <= m < k :: IsDigit(line[m])
    requires k < |line| ==> !IsDigit(line[k])
    ensures IsToolLine(line) <==>
              k < |line| && line[k] == 'C' && FloatStartsAt(line, SpacesEnd(line, k + 1))
  {
    assert SpacesEnd(line, 1) == 1 && SkipSign(line, 1) == 1;
    DigitsEndStops(line, 1, k);
  }

  /** `sscanf(buf, "X%[-0-9]Y%[-0-9]", s1, s2) == 2`: the two coordinate tokens. */
  function ScanCoordLine(line: string): (r: Option<(string, string)>)
    ensures r.Some? ==> |r.value.0| > 0 && |r.value.1| > 0
    ensures r.Some? ==> |line| >= |r.value.0| + |r.value.1| + 2 &&
                        line[..|r.value.0| + |r.value.1| + 2] == ['X'] + r.value.0 + ['Y'] + r.value.1
    ensures r.Some? ==> forall k | 0 <= k < |r.value.0| :: InCoordSet(r.value.0[k])
    ensures r.Some? ==> forall k | 0 <= k < |r.value.1| :: InCoordSet(r.value.1[k])
    ensures r.Some? ==> var n := |r.value.0| + |r.value.1| + 2; n == |line| || !InCoordSet(line[n])
  {
    if |line| == 0 || line[0] != 'X' then None
    else
      var j := CoordSetEnd(line, 1);
      if j == 1 || j == |line| || line[j] != 'Y' then None
      else
        var k := CoordSetEnd(line, j + 1);
        if k == j + 1 then None
        else
          var t0, t1 := line[1..j], line[j + 1..k];
          CoordLineSplit(line, j, k);
          Some((t0, t1))
  }

  /** line starts with 'X', a non-empty run of `%[-0-9]` characters up to j,
      'Y' at j, and a non-empty run of them from j + 1 up to k. */
  predicate CoordShape(line: string, j: int, k: int)
  {
    1 < j && j + 1 < k <= |line| && line[0] == 'X' && line[j] == 'Y' &&
    (forall m | 1 <= m < j :: InCoordSet(line[m])) &&
    (forall m | j < m < k :: InCoordSet(line[m]))
  }

  /** Every line of the coordinate shape is recognised: its first token is
      everything between 'X' and 'Y', and its second token is the longest run of
      `%[-0-9]` characters after 'Y', so it extends the given one. */
  lemma ScanCoordLineComplete(line: string, j: nat, k: nat)
    requires CoordShape(line, j, k)
    ensures ScanCoordLine(line).Some?
    ensures ScanCoordLine(line).value.0 == line[1..j]
    ensures |ScanCoordLine(line).value.1| >= k - j - 1
    ensures ScanCoordLine(line).value.1[..k - j - 1] == line[j + 1..k]
  {
    assert CoordSetEnd(line, 1) == j;
    var f := CoordSetEnd(line, j + 1);
    assert f >= k;
    assert line[j + 1..f][..k - j - 1] == line[j + 1..k];
  }

  lemma CoordLineSplit(line: string, j: nat, k: nat)
    requires 1 <= j < k <= |line| && line[0] == 'X' && line[j] == 'Y'
    ensures line[..k] == ['X'] + line[1..j] + ['Y'] + line[j + 1..k]
  {
    assert line[..k] == line[..1] + line[1..j] + line[j..j + 1] + line[j + 1..k];
  }

  // ---------------------------------------------------------------------------
  // Numbers

  predicate AllDigits(s: string)
  {
    forall k | 0 <= k < |s| :: IsDigit(s[k])
  }

  /** The value of a string of decimal digits (read for any string, it takes
      each character's distance from '0' as its digit). */
  function DecimalValue(ds: string): int
  {
    if ds == [] then 0
    else 10 * DecimalValue(ds[..|ds| - 1]) + ((ds[|ds| - 1] as int) - ('0' as int))
  }

  /** `v * pow(10, k)`, built one factor of ten at a time. Decode only ever
      needs k >= -1; the definition takes any integer exponent. */
  function TimesPow10(v: int, k: int): real
    decreases if k < 0 then -k else k
  {
    if k == 0 then v as real
    else if k > 0 then 10.0 * TimesPow10(v, k - 1)
    else TimesPow10(v, k + 1) / 10.0
  }

  /** `sscanf(tok, "%f", &v)` on a token of '-' and digits: an optional minus and
      the longest run of digits after it; None when no digit follows. */
  function ScanNumber(tok: string): (r: Option<int>)
    ensures r.Some? ==> |tok| > 0
  {
    var start := if |tok| > 0 && tok[0] == '-' then 1 else 0;
    var end := DigitsEnd(tok, start);
    if end == start then None
    else
      var v := DecimalValue(tok[start..end]);
      Some(if start == 1 then -v else v)
  }

  /** The longest token whose coordinate is a finite number: the exponent
      `10 - strlen(s1)` at metadrill.c:228-229 is computed in the unsigned size_t,
      so a longer token wraps it to about 2^64 and `pow` returns infinity. */
  const MaxTokenLength := 10

  /** The implicit-decimal rule (metadrill.c:228-229): the number scaled by
      10^(10 - length of the token), and by ten more when the token starts with '-'.
      None when `%f` converts nothing, or when the token is so long that the
      result is not a finite number (plus or minus infinity, or NaN for zero). */
  function Decode(tok: string): (r: Option<real>)
    ensures r.Some? <==> |tok| <= MaxTokenLength && ScanNumber(tok).Some?
  {
    if |tok| > MaxTokenLength then None
    else match ScanNumber(tok)
    case None => None
    case Some(v) => Some(TimesPow10(v, 10 - |tok|) * (if tok[0] == '-' then 10.0 else 1.0))
  }

  // ---------------------------------------------------------------------------
  // The holes a file describes

  /** The hole a line adds: one for a coordinate line, none otherwise. */
  function LinePoints(line: string): (ps: seq<Pos>)
    ensures |ps| <= 1
    ensures forall p | p in ps :: !p.done
  {
    match ScanCoordLine(line)
    case None => []
    case Some(toks) =>
      match (Decode(toks.0), Decode(toks.1))
      case (Some(x), Some(y)) => [Pos(x, y, false)]
      case _ => []
  }

  /** The holes of a file, in file order. */
  function Points(lines: seq<string>): (ps: seq<Pos>)
    ensures |ps| <= |lines|
  {
    if lines == [] then []
    else Points(lines[..|lines| - 1]) + LinePoints(lines[|lines| - 1])
  }

  predicate ToolSelectedBefore(lines: seq<string>, i: nat)
    requires i <= |lines|
  {
    exists j | 0 <= j < i :: IsToolLine(lines[j])
  }

  /** Both tokens of every coordinate line hold a digit and are at most ten
      characters long; otherwise `%f` converts nothing and the source goes on with
      an uninitialised float, or the coordinate is not a finite number. */
  predicate CoordinatesDecode(lines: seq<string>)
  {
    forall i | 0 <= i < |lines| && ScanCoordLine(lines[i]).Some? :: |LinePoints(lines[i])| == 1
  }

  /** What the source needs of a file's lines to stay within defined behaviour:
      the coordinates decode, and every coordinate line comes after some
      tool-select line (before that the list pointer is NULL, metadrill.c:199 and
      248-250). */
  predicate WellFormedDrillFile(lines: seq<string>)
  {
    CoordinatesDecode(lines) &&
    forall i | 0 <= i < |lines| && ScanCoordLine(lines[i]).Some? :: ToolSelectedBefore(lines, i)
  }

  // ---------------------------------------------------------------------------
  // Bounding box

  /** One step of the min/max updates of metadrill.c:236-243. */
  function Extend(b: Box, p: Pos): Box
  {
    Box(if p.x < b.minX then p.x else b.minX,
        if p.x > b.maxX then p.x else b.maxX,
        if p.y < b.minY then p.y else b.minY,
        if p.y > b.maxY then p.y else b.maxY)
  }

  /** The box after reading the holes ps: the first sets it, the rest extend it. */
  function BoxOf(ps: seq<Pos>): (b: Box)
    requires |ps| > 0
    ensures b.minX <= b.maxX && b.minY <= b.maxY
    ensures InBox(b, ps[0]) && InBox(b, ps[|ps| - 1])
  {
    if |ps| == 1 then Box(ps[0].x, ps[0].x, ps[0].y, ps[0].y)
    else Extend(BoxOf(ps[..|ps| - 1]), ps[|ps| - 1])
  }

  /** The box holds every hole, and each of its four edges touches one. */
  lemma {:induction false} BoxOfIsTight(ps: seq<Pos>)
    requires |ps| > 0
    ensures forall p | p in ps :: InBox(BoxOf(ps), p)
    ensures exists i | 0 <= i < |ps| :: ps[i].x == BoxOf(ps).minX
    ensures exists i | 0 <= i < |ps| :: ps[i].x == BoxOf(ps).maxX
    ensures exists i | 0 <= i < |ps| :: ps[i].y == BoxOf(ps).minY
    ensures exists i | 0 <= i < |ps| :: ps[i].y == BoxOf(ps).maxY
  {
    if |ps| == 1 {
      assert ps[0].x == BoxOf(ps).minX;
    } else {
      var init := ps[..|ps| - 1];
      BoxOfIsTight(init);
      var b := BoxOf(init);
      var last := |ps| - 1;
      forall p | p in ps
        ensures InBox(BoxOf(ps), p)
      {
        if p != ps[last] {
          assert p in init;
        }
      }
      var i0 :| 0 <= i0 < |init| && init[i0].x == b.minX;
      var i1 :| 0 <= i1 < |init| && init[i1].x == b.maxX;
      var i2 :| 0 <= i2 < |init| && init[i2].y == b.minY;
      var i3 :| 0 <= i3 < |init| && init[i3].y == b.maxY;
      assert ps[if ps[last].x < b.minX then last else i0].x == BoxOf(ps).minX;
      assert ps[if ps[last].x > b.maxX then last else i1].x == BoxOf(ps).maxX;
      assert ps[if ps[last].y < b.minY then last else i2].y == BoxOf(ps).minY;
      assert ps[if ps[last].y > b.maxY then last else i3].y == BoxOf(ps).maxY;
    }
  }

  // ---------------------------------------------------------------------------
  // Properties of the decoder and the reader

  lemma {:induction false} DigitsEndOfDigits(s: string, i: nat)
    requires i <= |s| && forall k | i <= k < |s| :: IsDigit(s[k])
    ensures DigitsEnd(s, i) == |s|
    decreases |s| - i
  {
    if i < |s| {
      DigitsEndOfDigits(s, i + 1);
    }
  }

  lemma DigitsEndStops(s: string, i: nat, k: nat)
    requires i <= k <= |s| && forall m | i <= m < k :: IsDigit(s[m])
    requires k < |s| ==> !IsDigit(s[k])
    ensures DigitsEnd(s, i) == k
  {
  }

  /** One factor of ten moves from the exponent into the product. */
  lemma TimesPow10Step(v: int, k: int)
    ensures TimesPow10(v, k - 1) * 10.0 == TimesPow10(v, k)
  {
  }

  lemma {:induction false} TimesPow10Negate(v: int, k: int)
    ensures TimesPow10(-v, k) == -TimesPow10(v, k)
    decreases if k < 0 then -k else k
  {
    if k > 0 {
      TimesPow10Negate(v, k - 1);
    } else if k < 0 {
      TimesPow10Negate(v, k + 1);
    }
  }

  lemma ScanDigits(d: string)
    requires |d| > 0 && AllDigits(d)
    ensures ScanNumber(d) == Some(DecimalValue(d))
  {
    DigitsEndOfDigits(d, 0);
    assert d[0..|d|] == d;
  }

  lemma ScanMinusDigits(d: string, m: string)
    requires |d| > 0 && AllDigits(d) && m == "-" + d
    ensures ScanNumber(m) == Some(-DecimalValue(d))
  {
    DigitsEndOfDigits(m, 1);
    assert m[1..|m|] == d;
  }

  lemma DecodePlain(d: string, v: int)
    requires |d| > 0 && d[0] != '-' && ScanNumber(d) == Some(v)
    ensures Decode(d) == if |d| <= MaxTokenLength then Some(TimesPow10(v, 10 - |d|)) else None
  {
  }

  lemma DecodeMinus(d: string, m: string, v: int)
    requires m == "-" + d && ScanNumber(m) == Some(-v)
    ensures Decode(m) == if |m| <= MaxTokenLength then Some(-TimesPow10(v, 10 - |d|)) else None
  {
    if |m| <= MaxTokenLength {
      var e := 10 - |d|;
      assert m[0] == '-' && 10 - |m| == e - 1;
      assert Decode(m) == Some(TimesPow10(-v, e - 1) * 10.0);
      TimesPow10Negate(v, e - 1);
      TimesPow10Step(v, e);
    }
  }

  /** The implicit decimal point: a digit string d of at most ten digits decodes
      to its value times 10^(10 - |d|); a longer one has no finite value. */
  lemma DecodeDigits(d: string)
    requires |d| > 0 && AllDigits(d)
    ensures Decode(d) == if |d| <= MaxTokenLength then Some(TimesPow10(DecimalValue(d), 10 - |d|)) else None
  {
    ScanDigits(d);
    DecodePlain(d, DecimalValue(d));
  }

  /** "-" + d decodes to exactly the negation of d whenever the longer token
      still fits: the extra factor of ten for a leading minus makes up for the
      minus being counted in the token length. With ten digits d decodes but
      "-" + d does not. */
  lemma DecodeNegation(d: string)
    requires |d| > 0 && AllDigits(d)
    ensures Decode(d).Some? <==> |d| <= MaxTokenLength
    ensures |d| < MaxTokenLength ==> Decode("-" + d) == Some(-Decode(d).value)
    ensures |d| >= MaxTokenLength ==> Decode("-" + d) == None
  {
    var v := DecimalValue(d);
    ScanDigits(d);
    DecodePlain(d, v);
    ScanMinusDigits(d, "-" + d);
    DecodeMinus(d, "-" + d, v);
  }

  /** The indices of a file's coordinate lines. */
  function CoordLineIndices(lines: seq<string>): set<int>
  {
    IndicesWhere(lines, line => ScanCoordLine(line).Some?)
  }

  function IndicesWhere<T>(s: seq<T>, f: T -> bool): set<int>
  {
    set i | 0 <= i < |s| && f(s[i])
  }

  lemma IndicesWhereSnoc<T>(s: seq<T>, f: T -> bool)
    requires |s| > 0
    ensures |IndicesWhere(s, f)| == |IndicesWhere(s[..|s| - 1], f)| + (if f(s[|s| - 1]) then 1 else 0)
  {
    var n := |s| - 1;
    var before := IndicesWhere(s[..n], f);
    var all := IndicesWhere(s, f);
    var last := if f(s[n]) then {n} else {};
    forall x
      ensures x in all <==> x in before + last
    {
      if 0 <= x < n {
        assert s[..n][x] == s[x];
      }
    }
    assert all == before + last;
    assert n !in before;
  }

  lemma CoordinatesDecodePrefix(lines: seq<string>, k: nat)
    requires CoordinatesDecode(lines) && k <= |lines|
    ensures CoordinatesDecode(lines[..k])
  {
    forall i | 0 <= i < k && ScanCoordLine(lines[..k][i]).Some?
      ensures |LinePoints(lines[..k][i])| == 1
    {
      assert lines[..k][i] == lines[i];
    }
  }

  /** A file adds exactly one hole per coordinate line and none for other lines. */
  lemma {:induction false} PointsCount(lines: seq<string>)
    requires CoordinatesDecode(lines)
    ensures |Points(lines)| == |CoordLineIndices(lines)|
  {
    if lines != [] {
      var n := |lines| - 1;
      CoordinatesDecodePrefix(lines, n);
      PointsCount(lines[..n]);
      IndicesWhereSnoc(lines, line => ScanCoordLine(line).Some?);
      if ScanCoordLine(lines[n]).None? {
        assert LinePoints(lines[n]) == [];
      }
    }
  }

  lemma PointsStep(lines: seq<string>, i: nat)
    requires i < |lines|
    ensures Points(lines[..i + 1]) == Points(lines[..i]) + LinePoints(lines[i])
  {
    assert lines[..i + 1][..i] == lines[..i];
  }

  lemma ToolSelectedStep(lines: seq<string>, i: nat)
    requires i < |lines|
    ensures ToolSelectedBefore(lines, i + 1) <==> ToolSelectedBefore(lines, i) || IsToolLine(lines[i])
  {
  }

  /** A coordinate line whose tokens decode adds the hole at the decoded point. */
  lemma CoordLineHole(line: string)
    requires ScanCoordLine(line).Some? && |LinePoints(line)| == 1
    ensures Decode(ScanCoordLine(line).value.0).Some? && Decode(ScanCoordLine(line).value.1).Some?
    ensures LinePoints(line) == [Pos(Decode(ScanCoordLine(line).value.0).value,
                                     Decode(ScanCoordLine(line).value.1).value, false)]
  {
  }

  /** s back to front: the order in which prepending the elements of s leaves them. */
  function Reversed(s: seq<Pos>): (r: seq<Pos>)
    ensures |r| == |s|
  {
    if s == [] then [] else [s[|s| - 1]] + Reversed(s[..|s| - 1])
  }

  lemma ReversedSnoc(s: seq<Pos>, t: seq<Pos>)
    requires |t| <= 1
    ensures Reversed(s + t) == t + Reversed(s)
  {
    if t == [] {
      assert s + t == s;
    } else {
      assert (s + t)[..|s|] == s;
    }
  }

  lemma AppendAssoc(a: seq<Pos>, b: seq<Pos>, c: seq<Pos>)
    ensures a + (b + c) == (a + b) + c
  {
  }

  lemma {:induction false} ReversedMultiset(s: seq<Pos>)
    ensures multiset(Reversed(s)) == multiset(s)
  {
    if s != [] {
      var n := |s| - 1;
      ReversedMultiset(s[..n]);
      assert s == s[..n] + [s[n]];
    }
  }

  /** Reading one more hole extends the box of the holes before it. */
  lemma BoxOfSnoc(ps: seq<Pos>, p: Pos)
    requires |ps| > 0
    ensures BoxOf(ps + [p]) == Extend(BoxOf(ps), p)
  {
    assert (ps + [p])[..|ps|] == ps;
  }

  // ---------------------------------------------------------------------------
  // The drill list

  /** Holes in non-decreasing order of a key: what `qsort` leaves in the
      pointer array. */
  ghost predicate Ascending(key: Pos -> int, s: seq<Pos>)
  {
    forall i, j | 0 <= i < j < |s| :: key(s[i]) <= key(s[j])
  }

  /** key is the comparator's key for the box b. The sort reasons about key
      alone, and meets Key only at the comparator's results. */
  ghost predicate IsKeyOf(b: Box, key: Pos -> int)
    requires Spans(b)
  {
    forall p {:trigger Key(b, p)} :: key(p) == Key(b, p)
  }

  ghost function KeyFunction(b: Box): Pos -> int
  {
    p => if Spans(b) then Key(b, p) else 0
  }

  lemma KeyFunctionIsKeyOf(b: Box)
    requires Spans(b)
    ensures IsKeyOf(b, KeyFunction(b))
  {
  }

  /** `compare_pos_by_morton_num` as the sort sees it: through the key alone. */
  method CompareByKey(b: Box, ghost key: Pos -> int, p: Pos, q: Pos) returns (c: int)
    requires Spans(b) && IsKeyOf(b, key)
    ensures c <= 0 <==> key(p) <= key(q)
  {
    c := ComparePosByMortonNum(b, p, q);
  }

  /** After a round of the sort: the prefix up to i is in order once the element
      at j is no smaller than the one before it. */
  lemma PlacedIsAscending(key: Pos -> int, s: seq<Pos>, i: nat, j: nat)
    requires j <= i < |s|
    requires forall p, q | 0 <= p < q <= i && p != j && q != j :: key(s[p]) <= key(s[q])
    requires forall q | j < q <= i :: key(s[j]) <= key(s[q])
    requires j > 0 ==> key(s[j - 1]) <= key(s[j])
    ensures Ascending(key, s[..i + 1])
  {
    forall p, q | 0 <= p < q <= i
      ensures key(s[p]) <= key(s[q])
    {
      if q == j && p < j - 1 {
        assert key(s[p]) <= key(s[j - 1]);
      }
    }
  }

  /** Exchanges a[j - 1] and a[j]. */
  method SwapDown(a: array<Pos>, j: int)
    requires 0 < j < a.Length
    modifies a
    ensures a[j - 1] == old(a[j]) && a[j] == old(a[j - 1])
    ensures forall k | 0 <= k < a.Length && k != j - 1 && k != j :: a[k] == old(a[k])
    ensures multiset(a[..]) == old(multiset(a[..]))
  {
    ghost var before := a[..];
    a[j - 1], a[j] := a[j], a[j - 1];
    assert a[..] == before[j - 1 := before[j]][j := before[j - 1]];
  }

  /** One round of the sort: moves a[i] down into the sorted prefix a[..i]. */
  method InsertDown(a: array<Pos>, b: Box, ghost key: Pos -> int, i: int)
    requires Spans(b) && IsKeyOf(b, key)
    requires 1 <= i < a.Length
    requires Ascending(key, a[..i])
    modifies a
    ensures multiset(a[..]) == old(multiset(a[..]))
    ensures Ascending(key, a[..i + 1])
  {
    var j := i;
    var placed := false;
    while j > 0 && !placed
      invariant 0 <= j <= i
      invariant multiset(a[..]) == old(multiset(a[..]))
      invariant forall p, q | 0 <= p < q <= i && p != j && q != j :: key(a[p]) <= key(a[q])
      invariant forall q | j < q <= i :: key(a[j]) <= key(a[q])
      invariant placed ==> j > 0 && key(a[j - 1]) <= key(a[j])
      decreases j, if placed then 0 else 1
    {
      var c := CompareByKey(b, key, a[j - 1], a[j]);
      if c <= 0 {
        placed := true;
      } else {
        SwapDown(a, j);
        j := j - 1;
      }
    }
    PlacedIsAscending(key, a[..], i, j);
  }

  /** The `qsort` call of metadrill.c:184 with `compare_pos_by_morton_num`. The
      model sorts by insertion; what the rest of the model relies on is only the
      contract of `qsort`: ordered by the comparator, and a permutation. */
  method SortByKey(a: array<Pos>, b: Box, ghost key: Pos -> int)
    requires a.Length >= 2 ==> Spans(b) && IsKeyOf(b, key)
    modifies a
    ensures multiset(a[..]) == old(multiset(a[..]))
    ensures Ascending(key, a[..])
  {
    if a.Length < 2 {
      return;
    }
    for i := 1 to a.Length
      invariant Ascending(key, a[..i])
      invariant multiset(a[..]) == old(multiset(a[..]))
    {
      InsertDown(a, b, key, i);
    }
    assert a[..a.Length] == a[..];
  }

  /** The filling loop of metadrill.c:181-182: the list copied into a new array. */
  method PointerArray(list: seq<Pos>, count: int) returns (dl: array<Pos>)
    requires count == |list|
    ensures fresh(dl)
    ensures dl[..] == list
  {
    dl := new Pos[count];
    for i := 0 to count
      invariant dl[..i] == list[..i]
    {
      dl[i] := list[i];
    }
  }

  /** The relinking loop of metadrill.c:186-190: each element in turn is put at
      the head of the list, so the list is the array reversed. */
  method Relink(dl: array<Pos>) returns (list: seq<Pos>)
    ensures |list| == dl.Length
    ensures forall k | 0 <= k < dl.Length :: list[k] == dl[dl.Length - 1 - k]
    ensures multiset(list) == multiset(dl[..])
  {
    list := [];
    for i := 0 to dl.Length
      invariant |list| == i
      invariant forall k | 0 <= k < i :: list[k] == dl[i - 1 - k]
      invariant multiset(list) == multiset(dl[..i])
    {
      assert dl[..i + 1] == dl[..i] + [dl[i]];
      list := [dl[i]] + list;
    }
    assert dl[..dl.Length] == dl[..];
  }

  /** The relinking step of the sort: the array in ascending key order becomes
      a list in non-increasing key order with the same holes. */
  method RelinkSorted(dl: array<Pos>, b: Box, ghost key: Pos -> int) returns (list: seq<Pos>)
    requires dl.Length >= 2 ==> Spans(b) && IsKeyOf(b, key)
    requires Ascending(key, dl[..])
    ensures |list| == dl.Length && multiset(list) == multiset(dl[..])
    ensures NonIncreasing(b, list)
  {
    list := Relink(dl);
    RelinkedNonIncreasing(b, key, dl[..], list);
  }

  /** The array in ascending key order, reversed, is in non-increasing order. */
  lemma RelinkedNonIncreasing(b: Box, key: Pos -> int, dl: seq<Pos>, list: seq<Pos>)
    requires |dl| >= 2 ==> Spans(b) && IsKeyOf(b, key)
    requires Ascending(key, dl)
    requires |list| == |dl| && forall k | 0 <= k < |dl| :: list[k] == dl[|dl| - 1 - k]
    ensures NonIncreasing(b, list)
  {
    var n := |dl|;
    forall i, j | 0 <= i < j < n
      ensures Key(b, list[i]) >= Key(b, list[j])
    {
      assert list[i] == dl[n - 1 - i] && list[j] == dl[n - 1 - j];
      assert key(dl[n - 1 - j]) <= key(dl[n - 1 - i]);
    }
  }

  /** The drill list and bounding box of the source's globals. The mark and mount
      lists stay empty in the source (their selection is commented out) and are
      not modelled. */
  class DrillBoard {
    var drillList: seq<Pos>
    var drillCount: int
    var minX: real
    var maxX: real
    var minY: real
    var maxY: real

    ghost predicate Valid()
      reads this
    {
      drillCount == |drillList|
    }

    /** `p->done = 1` in the drill-all loop, for the hole at position i. */
    method MarkDone(i: nat)
      requires Valid() && i < |drillList|
      modifies this`drillList
      ensures Valid()
      ensures drillList == old(drillList)[i := old(drillList)[i].(done := true)]
    {
      drillList := drillList[i := drillList[i].(done := true)];
    }

    function Bounds(): Box
      reads this
    {
      Box(minX, maxX, minY, maxY)
    }

    /** The zero-initialised globals before any file is read. */
    constructor ()
      ensures Valid() && drillList == []
      ensures Bounds() == Box(0.0, 0.0, 0.0, 0.0)
    {
      drillList := [];
      drillCount := 0;
      minX, maxX, minY, maxY := 0.0, 0.0, 0.0, 0.0;
    }

    /** `sort_drill_list_by_morton_num`: copy the list into a pointer array, sort it
        ascending by key, then relink by prepending each element in turn, which
        leaves the list in non-increasing key order. */
    method SortDrillListByMortonNum()
      requires Valid()
      requires |drillList| >= 2 ==> Spans(Bounds())
      modifies this`drillList
      ensures Valid()
      ensures multiset(drillList) == multiset(old(drillList))
      ensures NonIncreasing(Bounds(), drillList)
    {
      var dl := PointerArray(drillList, drillCount);
      var b := Bounds();
      ghost var key := KeyFunction(b);
      if dl.Length >= 2 {
        KeyFunctionIsKeyOf(b);
      }
      SortByKey(dl, b, key);
      var list := RelinkSorted(dl, b, key);
      drillList := list;
      assert Bounds() == b;
    }

    /** The body of the coordinate-line branch of `read_drlfile`: the first hole
        sets the box, each hole widens it, and the new hole is prepended. */
    method AddHole(p: Pos, firstDrill: bool)
      requires Valid()
      modifies this
      ensures Valid()
      ensures drillList == [p] + old(drillList)
      ensures Bounds() == if firstDrill then BoxOf([p]) else Extend(old(Bounds()), p)
    {
      if firstDrill {
        minX, maxX := p.x, p.x;
        minY, maxY := p.y, p.y;
      }
      if p.x < minX {
        minX := p.x;
      }
      if p.x > maxX {
        maxX := p.x;
      }
      if p.y < minY {
        minY := p.y;
      }
      if p.y > maxY {
        maxY := p.y;
      }
      drillList := [p] + drillList;
      drillCount := drillCount + 1;
    }

    /** The coordinate-line branch of `read_drlfile` (metadrill.c:224-256) for
        one line; before are the holes read so far, and the result is the new
        value of the first-hole flag. */
    method ReadCoordLine(line: string, ghost before: seq<Pos>, firstDrill: bool) returns (stillFirst: bool)
      requires Valid()
      requires ScanCoordLine(line).Some? ==> |LinePoints(line)| == 1
      requires firstDrill <==> before == []
      requires !firstDrill ==> Bounds() == BoxOf(before)
      modifies this
      ensures Valid()
      ensures drillList == LinePoints(line) + old(drillList)
      ensures stillFirst <==> before + LinePoints(line) == []
      ensures stillFirst ==> Bounds() == old(Bounds())
      ensures !stillFirst ==> Bounds() == BoxOf(before + LinePoints(line))
    {
      var tokens := ScanCoordLine(line);
      if tokens.Some? {
        CoordLineHole(line);
        var p := Pos(Decode(tokens.value.0).value, Decode(tokens.value.1).value, false);
        AddHole(p, firstDrill);
        if firstDrill {
          assert before + LinePoints(line) == [p];
        } else {
          BoxOfSnoc(before, p);
        }
        stillFirst := false;
      } else {
        assert LinePoints(line) == [];
        assert before + LinePoints(line) == before;
        stillFirst := firstDrill;
      }
    }

    /** The line loop of `read_drlfile` (metadrill.c:202-257): every coordinate
        line after a tool-select line prepends one new hole and widens the box. */
    method ReadLines(lines: seq<string>)
      requires Valid()
      requires WellFormedDrillFile(lines)
      modifies this
      ensures Valid()
      ensures drillList == Reversed(Points(lines)) + old(drillList)
      ensures Points(lines) == [] ==> Bounds() == old(Bounds())
      ensures Points(lines) != [] ==> Bounds() == BoxOf(Points(lines))
    {
      var firstDrill := true;
      var toolSelected := false;
      for i := 0 to |lines|
        invariant Valid()
        invariant toolSelected <==> ToolSelectedBefore(lines, i)
        invariant firstDrill <==> Points(lines[..i]) == []
        invariant firstDrill ==> Bounds() == old(Bounds())
        invariant !firstDrill ==> Bounds() == BoxOf(Points(lines[..i]))
        invariant drillList == Reversed(Points(lines[..i])) + old(drillList)
      {
        var line := lines[i];
        PointsStep(lines, i);
        ReversedSnoc(Points(lines[..i]), LinePoints(line));
        ToolSelectedStep(lines, i);
        if IsToolLine(line) {
          toolSelected := true;
        }
        // a coordinate line finds the list pointer set: a tool-select line came first
        assert ScanCoordLine(line).Some? ==> toolSelected;
        ghost var lp, rest := LinePoints(line), drillList;
        firstDrill := ReadCoordLine(line, Points(lines[..i]), firstDrill);
        assert drillList == lp + rest;
        AppendAssoc(lp, Reversed(Points(lines[..i])), old(drillList));
      }
      assert lines[..|lines|] == lines;
    }

    /** `read_drlfile`: read the holes of a file, then put the list in Z-order.
        The file must have a line (the first `fgets` at metadrill.c:202 is not
        checked, so an empty file runs the loop body once on an uninitialised
        buffer), keep to WellFormedDrillFile, and give the box a width and a
        height whenever there are two holes to compare. */
    method ReadDrlFile(lines: seq<string>)
      requires Valid()
      requires |lines| > 0 && WellFormedDrillFile(lines)
      requires |drillList| + |Points(lines)| >= 2 ==>
                 Spans(if Points(lines) == [] then Bounds() else BoxOf(Points(lines)))
      modifies this
      ensures Valid()
      ensures |drillList| == old(|drillList|) + |Points(lines)|
      ensures multiset(drillList) == multiset(old(drillList)) + multiset(Points(lines))
      ensures Points(lines) == [] ==> Bounds() == old(Bounds())
      ensures Points(lines) != [] ==> Bounds() == BoxOf(Points(lines))
      ensures NonIncreasing(Bounds(), drillList)
    {
      ReadLines(lines);
      ReversedMultiset(Points(lines));
      SortDrillListByMortonNum();
    }
  }
}
