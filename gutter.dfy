/**
 * The line-number gutter: `LineNumberRulerView.drawHashMarksAndLabels`.
 *
 * The text is split on newline characters, line `i` gets a label and a frame
 * whose top edge is `i * (11 + 4) + origin.y`, and the label is drawn only when
 * its frame intersects the rectangle the ruler was asked to redraw. Geometry is
 * on integers; the size the label font measures is a parameter.
 */
module Gutter {
  import opened Wrappers

  /** Point size of the label font. */
  const LabelFontSize: int := 11
  /** Added to the point size to get the distance between two labels. */
  const LabelSpacing: int := 4
  const LineAdvance: int := LabelFontSize + LabelSpacing
  /** `ruleThickness` of the ruler. */
  const RuleThickness: int := 50
  /** Gap between a label's right edge and the ruler's right edge. */
  const LabelMargin: int := 5

  // ---------------------------------------------------------------------------
  // Splitting the text into lines

  /** Members of Foundation's newline character set: U+000A-U+000D, U+0085, U+2028, U+2029. */
  predicate IsNewline(c: char)
  {
    '\n' <= c <= '\r' || c == '\U{0085}' || c == '\U{2028}' || c == '\U{2029}'
  }

  predicate NoNewline(line: string)
  {
    forall c :: c in line ==> !IsNewline(c)
  }

  /** The newline characters of `s`, in order. */
  function Separators(s: string): (seps: seq<char>)
    ensures forall c :: c in seps ==> IsNewline(c)
  {
    if s == [] then []
    else (if IsNewline(s[0]) then [s[0]] else []) + Separators(s[1..])
  }

  /**
   * `components(separatedBy: .newlines)`: the pieces between newline
   * characters. Every newline character ends a piece, so "\r\n" is two breaks.
   */
  function Lines(s: string): (lines: seq<string>)
    ensures |lines| == |Separators(s)| + 1
  {
    if s == [] then [[]]
    else
      var rest := Lines(s[1..]);
      if IsNewline(s[0]) then [[]] + rest
      else [[s[0]] + rest[0]] + rest[1..]
  }

  /** Puts the lines back together, with the separators between them. */
  function Unsplit(lines: seq<string>, seps: seq<char>): string
    requires |lines| == |seps| + 1
  {
    if seps == [] then lines[0]
    else lines[0] + [seps[0]] + Unsplit(lines[1..], seps[1..])
  }

  lemma {:induction false} LinesHaveNoNewline(s: string)
    ensures forall k :: 0 <= k < |Lines(s)| ==> NoNewline(Lines(s)[k])
  {
    if s != [] {
      LinesHaveNoNewline(s[1..]);
      var rest := Lines(s[1..]);
      if !IsNewline(s[0]) {
        assert NoNewline([s[0]] + rest[0]);
      }
    }
  }

  /** `Unsplit` unfolded once on a first line `first` and further lines `more`. */
  lemma UnsplitHead(first: string, more: seq<string>, seps: seq<char>)
    requires |more| == |seps|
    ensures seps == [] ==> Unsplit([first] + more, seps) == first
    ensures seps != [] ==> Unsplit([first] + more, seps) == first + ([seps[0]] + Unsplit(more, seps[1..]))
  {
    var lines := [first] + more;
    assert lines[0] == first && lines[1..] == more;
  }

  /** A character put in front of the first line is put in front of the whole text. */
  lemma UnsplitPrepend(c: char, first: string, more: seq<string>, seps: seq<char>)
    requires |more| == |seps|
    ensures Unsplit([[c] + first] + more, seps) == [c] + Unsplit([first] + more, seps)
  {
    UnsplitHead([c] + first, more, seps);
    UnsplitHead(first, more, seps);
  }

  /** No character is lost or invented: the lines and separators rebuild the text. */
  lemma {:induction false} LinesUnsplit(s: string)
    ensures Unsplit(Lines(s), Separators(s)) == s
  {
    if s != [] {
      LinesUnsplit(s[1..]);
      var rest, seps := Lines(s[1..]), Separators(s[1..]);
      if IsNewline(s[0]) {
        assert Lines(s) == [[]] + rest;
        assert Separators(s) == [s[0]] + seps;
        UnsplitHead([], rest, [s[0]] + seps);
        assert ([s[0]] + seps)[1..] == seps;
      } else {
        assert Lines(s) == [[s[0]] + rest[0]] + rest[1..];
        assert Separators(s) == seps;
        assert rest == [rest[0]] + rest[1..];
        UnsplitPrepend(s[0], rest[0], rest[1..], seps);
      }
      assert s == [s[0]] + s[1..];
    }
  }

  lemma LinesOfCons(c: char, s: string)
    ensures Lines([c] + s) == if IsNewline(c) then [[]] + Lines(s) else [[c] + Lines(s)[0]] + Lines(s)[1..]
  {
  }

  /** An empty text has one line, and "\r\n" is two line breaks. */
  lemma LinesOfEmptyAndCrLf()
    ensures Lines("") == [""]
    ensures Lines("\r\n") == ["", "", ""]
  {
  }

  /** A line without newline characters followed by a break is the first line. */
  lemma {:induction false} LinesOfLineThenBreak(line: string, sep: char, rest: string)
    requires NoNewline(line) && IsNewline(sep)
    ensures Lines(line + [sep] + rest) == [line] + Lines(rest)
  {
    if line == [] {
      LinesOfCons(sep, rest);
      assert line + [sep] + rest == [sep] + rest;
    } else {
      var tail := line[1..];
      assert NoNewline(tail) by {
        forall c | c in tail ensures !IsNewline(c) {
          assert c in line;
        }
      }
      assert line[0] in line;
      LinesOfLineThenBreak(tail, sep, rest);
      LinesOfCons(line[0], tail + [sep] + rest);
      assert line + [sep] + rest == [line[0]] + (tail + [sep] + rest);
      assert [line[0]] + tail == line;
    }
  }

  /** A text without newline characters is one line. */
  lemma {:induction false} LinesOfLine(line: string)
    requires NoNewline(line)
    ensures Lines(line) == [line]
  {
    if line != [] {
      var tail := line[1..];
      assert NoNewline(tail) by {
        forall c | c in tail ensures !IsNewline(c) {
          assert c in line;
        }
      }
      assert line[0] in line;
      LinesOfLine(tail);
      LinesOfCons(line[0], tail);
      assert [line[0]] + tail == line;
    }
  }

  /** Three newline-free lines joined by two line breaks split back into those three lines. */
  lemma LinesOfThree(first: string, second: string, third: string, sep1: char, sep2: char)
    requires NoNewline(first) && NoNewline(second) && NoNewline(third)
    requires IsNewline(sep1) && IsNewline(sep2)
    ensures Lines(first + [sep1] + second + [sep2] + third) == [first, second, third]
  {
    LinesOfLine(third);
    LinesOfLineThenBreak(second, sep2, third);
    LinesOfLineThenBreak(first, sep1, second + [sep2] + third);
    assert first + [sep1] + second + [sep2] + third == first + [sep1] + (second + [sep2] + third);
  }

  /** The three lines of "a\nbb\nccc". */
  lemma LinesOfABbCcc()
    ensures Lines("a\nbb\nccc") == ["a", "bb", "ccc"]
  {
    LinesOfThree("a", "bb", "ccc", '\n', '\n');
    assert "a\nbb\nccc" == "a" + ['\n'] + "bb" + ['\n'] + "ccc";
  }

  // ---------------------------------------------------------------------------
  // Labels

  predicate IsDigit(c: char)
  {
    '0' <= c <= '9'
  }

  function Digit(d: nat): (c: char)
    requires d < 10
    ensures IsDigit(c)
  {
    (48 + d) as char
  }

  function DigitValue(c: char): (d: nat)
    requires IsDigit(c)
    ensures d < 10 && Digit(d) == c
  {
    c as int - 48
  }

  /** The decimal numeral of `n`, without leading zeros. */
  function Decimal(n: nat): (s: string)
    ensures |s| >= 1
    ensures forall c :: c in s ==> IsDigit(c)
    ensures n > 0 ==> s[0] != '0'
  {
    if n < 10 then [Digit(n)] else Decimal(n / 10) + [Digit(n % 10)]
  }

  /** Reads a string of digits back as a number. */
  function DecimalValue(s: string): nat
    requires forall c :: c in s ==> IsDigit(c)
  {
    if s == [] then 0 else DecimalValue(s[..|s| - 1]) * 10 + DigitValue(s[|s| - 1])
  }

  lemma {:induction false} DecimalRoundTrip(n: nat)
    ensures DecimalValue(Decimal(n)) == n
  {
    var s := Decimal(n);
    if n >= 10 {
      DecimalRoundTrip(n / 10);
      assert s[..|s| - 1] == Decimal(n / 10);
    } else {
      assert s[..0] == [];
    }
  }

  /** The label of 0-based line `lineNumber`: the decimal numeral of `lineNumber + 1`. */
  function Label(lineNumber: nat): string
  {
    Decimal(lineNumber + 1)
  }

  /** Different lines never share a label, and a label reads back as its 1-based line number. */
  lemma LabelsDistinct(i: nat, j: nat)
    ensures DecimalValue(Label(i)) == i + 1
    ensures i != j ==> Label(i) != Label(j)
  {
    DecimalRoundTrip(i + 1);
    DecimalRoundTrip(j + 1);
  }

  /**
   * The label as line 291 writes it: the escaped backslash switches string
   * interpolation off, so every line gets the same 17 characters.
   */
  function LabelAsWritten(lineNumber: nat): string
  {
    "\\(lineNumber + 1)"
  }

  lemma AsWrittenLabelsCollide(i: nat, j: nat)
    ensures LabelAsWritten(i) == LabelAsWritten(j)
    ensures |LabelAsWritten(i)| == 17 && LabelAsWritten(i)[0] == '\\'
    ensures LabelAsWritten(0) != Label(0) && Label(0) == "1" && Label(1) == "2"
  {
  }

  // ---------------------------------------------------------------------------
  // Geometry

  datatype Rect = Rect(x: int, y: int, width: int, height: int)

  /** What the label font measures for a label (`size(withAttributes:)`). */
  datatype LabelSize = LabelSize(width: int, height: int)

  predicate IsEmptyRect(r: Rect)
  {
    r.width <= 0 || r.height <= 0
  }

  /** Foundation's `NSIntersectsRect`: two non-empty rectangles whose interiors overlap. */
  predicate Intersects(a: Rect, b: Rect)
  {
    !IsEmptyRect(a) && !IsEmptyRect(b) &&
    a.x < b.x + b.width && b.x < a.x + a.width &&
    a.y < b.y + b.height && b.y < a.y + a.height
  }

  function LabelY(lineNumber: nat, originY: int): int
  {
    lineNumber * LineAdvance + originY
  }

  /** The frame of line `lineNumber`'s label, right-aligned in the ruler. */
  function LabelRect(lineNumber: nat, originY: int, size: LabelSize): Rect
  {
    Rect(RuleThickness - size.width - LabelMargin, LabelY(lineNumber, originY), size.width, size.height)
  }

  lemma LabelYSpacing(i: nat, j: nat, originY: int)
    ensures LabelY(0, originY) == originY
    ensures LabelY(i + 1, originY) == LabelY(i, originY) + 15
    ensures i < j <==> LabelY(i, originY) < LabelY(j, originY)
  {
  }

  /** Lines whose labels are drawn form one run: a line between two drawn lines is drawn. */
  lemma DrawnLinesContiguous(i: nat, j: nat, k: nat, originY: int, size: LabelSize, dirty: Rect)
    requires i < j < k
    requires Intersects(dirty, LabelRect(i, originY, size))
    requires Intersects(dirty, LabelRect(k, originY, size))
    ensures Intersects(dirty, LabelRect(j, originY, size))
  {
  }

  // ---------------------------------------------------------------------------
  // What is drawn

  datatype Mark = Mark(caption: string, frame: Rect)

  function MarkOf(lineNumber: nat, originY: int, size: LabelSize): Mark
  {
    Mark(Label(lineNumber), LabelRect(lineNumber, originY, size))
  }

  /** The lines below `n` whose label frame meets `dirty`, in increasing order. */
  function DrawnLines(n: nat, originY: int, size: LabelSize, dirty: Rect): seq<nat>
  {
    if n == 0 then []
    else
      DrawnLines(n - 1, originY, size, dirty)
      + (if Intersects(dirty, LabelRect(n - 1, originY, size)) then [n - 1] else [])
  }

  function Marks(lines: seq<nat>, originY: int, size: LabelSize): seq<Mark>
  {
    seq(|lines|, k requires 0 <= k < |lines| => MarkOf(lines[k], originY, size))
  }

  /** The labels `drawHashMarksAndLabels` draws, in drawing order. */
  function GutterMarks(text: string, originY: int, size: LabelSize, dirty: Rect): seq<Mark>
  {
    Marks(DrawnLines(|Lines(text)|, originY, size, dirty), originY, size)
  }

  lemma MarksSnoc(lines: seq<nat>, i: nat, originY: int, size: LabelSize)
    ensures Marks(lines + [i], originY, size) == Marks(lines, originY, size) + [MarkOf(i, originY, size)]
  {
  }

  /** A line is in `DrawnLines` exactly when it is below `n` and its frame meets `dirty`. */
  lemma {:induction false} DrawnLinesExactly(n: nat, originY: int, size: LabelSize, dirty: Rect)
    ensures forall i: nat :: i in DrawnLines(n, originY, size, dirty) <==>
      i < n && Intersects(dirty, LabelRect(i, originY, size))
  {
    if n > 0 {
      DrawnLinesExactly(n - 1, originY, size, dirty);
    }
  }

  lemma {:induction false} DrawnLinesIncreasing(n: nat, originY: int, size: LabelSize, dirty: Rect)
    ensures forall j, k :: 0 <= j < k < |DrawnLines(n, originY, size, dirty)| ==>
      DrawnLines(n, originY, size, dirty)[j] < DrawnLines(n, originY, size, dirty)[k]
  {
    if n > 0 {
      DrawnLinesIncreasing(n - 1, originY, size, dirty);
      DrawnLinesExactly(n - 1, originY, size, dirty);
      var prev := DrawnLines(n - 1, originY, size, dirty);
      assert forall j :: 0 <= j < |prev| ==> prev[j] in prev;
    }
  }

  /** Marks of different lines differ: their frames are at different heights. */
  lemma MarkOfInjective(i: nat, j: nat, originY: int, size: LabelSize)
    requires MarkOf(i, originY, size) == MarkOf(j, originY, size)
    ensures i == j
  {
    assert LabelY(i, originY) == LabelY(j, originY);
  }

  /** Line `i`'s mark is among the marks of `lines` exactly when `i` is among `lines`. */
  lemma MarksMembership(lines: seq<nat>, originY: int, size: LabelSize)
    ensures forall i: nat :: MarkOf(i, originY, size) in Marks(lines, originY, size) <==> i in lines
  {
    var marks := Marks(lines, originY, size);
    assert |marks| == |lines|;
    forall i: nat
      ensures MarkOf(i, originY, size) in marks <==> i in lines
    {
      if MarkOf(i, originY, size) in marks {
        var k :| 0 <= k < |marks| && marks[k] == MarkOf(i, originY, size);
        MarkOfInjective(lines[k], i, originY, size);
      }
      if i in lines {
        var k :| 0 <= k < |lines| && lines[k] == i;
        assert marks[k] == MarkOf(i, originY, size);
      }
    }
  }

  /**
   * One label per line of the text, numbered from 1, and line `i`'s label is
   * drawn exactly when its frame meets the rectangle being redrawn.
   */
  lemma GutterDrawsExactlyIntersecting(text: string, originY: int, size: LabelSize, dirty: Rect)
    ensures |Lines(text)| == |Separators(text)| + 1
    ensures forall i: nat :: MarkOf(i, originY, size) in GutterMarks(text, originY, size, dirty) <==>
      i < |Lines(text)| && Intersects(dirty, LabelRect(i, originY, size))
  {
    DrawnLinesExactly(|Lines(text)|, originY, size, dirty);
    MarksMembership(DrawnLines(|Lines(text)|, originY, size, dirty), originY, size);
  }

  /** The marks of increasing lines are placed top to bottom. */
  lemma MarksDescend(lines: seq<nat>, originY: int, size: LabelSize)
    requires forall j, k :: 0 <= j < k < |lines| ==> lines[j] < lines[k]
    ensures forall j, k :: 0 <= j < k < |Marks(lines, originY, size)| ==>
      Marks(lines, originY, size)[j].frame.y < Marks(lines, originY, size)[k].frame.y
  {
    var marks := Marks(lines, originY, size);
    forall j, k | 0 <= j < k < |marks|
      ensures marks[j].frame.y < marks[k].frame.y
    {
      assert marks[j].frame.y == LabelY(lines[j], originY);
      assert marks[k].frame.y == LabelY(lines[k], originY);
      LabelYSpacing(lines[j], lines[k], originY);
    }
  }

  /** The mark's label is the 1-based number of the line at the mark's height. */
  predicate CaptionMatchesPosition(m: Mark, originY: int)
  {
    m.frame.y >= originY && (forall c :: c in m.caption ==> IsDigit(c)) &&
    DecimalValue(m.caption) * LineAdvance == m.frame.y - originY + LineAdvance
  }

  lemma MarkOfCaptioned(i: nat, originY: int, size: LabelSize)
    ensures CaptionMatchesPosition(MarkOf(i, originY, size), originY)
  {
    var m := MarkOf(i, originY, size);
    assert m.caption == Label(i) && m.frame.y == LabelY(i, originY);
    LabelsDistinct(i, i);
    assert DecimalValue(m.caption) == i + 1;
    assert (i + 1) * LineAdvance == i * LineAdvance + LineAdvance;
  }

  /** Every mark carries the numeral of the line its frame is placed at. */
  lemma MarksCaptioned(lines: seq<nat>, originY: int, size: LabelSize)
    ensures forall k :: 0 <= k < |Marks(lines, originY, size)| ==>
      CaptionMatchesPosition(Marks(lines, originY, size)[k], originY)
  {
    forall k | 0 <= k < |Marks(lines, originY, size)|
      ensures CaptionMatchesPosition(Marks(lines, originY, size)[k], originY)
    {
      MarkOfCaptioned(lines[k], originY, size);
    }
  }

  /** Labels are drawn top to bottom, each with the numeral of its own line. */
  lemma GutterMarksOrdered(text: string, originY: int, size: LabelSize, dirty: Rect)
    ensures forall j, k :: 0 <= j < k < |GutterMarks(text, originY, size, dirty)| ==>
      GutterMarks(text, originY, size, dirty)[j].frame.y < GutterMarks(text, originY, size, dirty)[k].frame.y
    ensures forall k :: 0 <= k < |GutterMarks(text, originY, size, dirty)| ==>
      CaptionMatchesPosition(GutterMarks(text, originY, size, dirty)[k], originY)
  {
    DrawnLinesIncreasing(|Lines(text)|, originY, size, dirty);
    MarksDescend(DrawnLines(|Lines(text)|, originY, size, dirty), originY, size);
    MarksCaptioned(DrawnLines(|Lines(text)|, originY, size, dirty), originY, size);
  }

  /** An empty redraw rectangle draws no label. */
  lemma EmptyDirtyRectDrawsNothing(text: string, originY: int, size: LabelSize, dirty: Rect)
    requires IsEmptyRect(dirty)
    ensures GutterMarks(text, originY, size, dirty) == []
  {
    DrawnLinesEmpty(|Lines(text)|, originY, size, dirty);
  }

  lemma {:induction false} DrawnLinesEmpty(n: nat, originY: int, size: LabelSize, dirty: Rect)
    requires IsEmptyRect(dirty)
    ensures DrawnLines(n, originY, size, dirty) == []
  {
    if n > 0 {
      DrawnLinesEmpty(n - 1, originY, size, dirty);
    }
  }

  /**
   * `drawHashMarksAndLabels(in: dirty)`. `client` is the text of the ruler's
   * client text view, or None when the client is not a text view.
   */
  method DrawHashMarksAndLabels(client: Option<string>, originY: int, size: LabelSize, dirty: Rect)
    returns (drawn: seq<Mark>)
    ensures client.None? ==> drawn == []
    ensures client.Some? ==> drawn == GutterMarks(client.value, originY, size, dirty)
  {
    drawn := [];
    if client.None? {
      return;
    }
    var lines := Lines(client.value);
    for lineNumber := 0 to |lines|
      invariant drawn == Marks(DrawnLines(lineNumber, originY, size, dirty), originY, size)
    {
      var lineString := Label(lineNumber);
      var y := lineNumber * (LabelFontSize + LabelSpacing) + originY;
      var drawRect := Rect(RuleThickness - size.width - LabelMargin, y, size.width, size.height);
      if Intersects(dirty, drawRect) {
        MarksSnoc(DrawnLines(lineNumber, originY, size, dirty), lineNumber, originY, size);
        drawn := drawn + [Mark(lineString, drawRect)];
      }
    }
  }
}
