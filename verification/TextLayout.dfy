/** Text drawing that cuts its buffer into lines in place: a terminator is written at the end
    of each line, the line is drawn, and the character put back. */
module TextLayout {
  import opened Helpers

  const NUL: char := '\0'

  /** The glyphs of a font at a scale, and the width to break at. */
  datatype Layout = Layout(advance: char -> Option<real>, width: real, wordBreak: bool)

  // ----- lines -----

  /** `extent` is the width the scan has added up; `newline` says that a newline ended it. */
  datatype Line = Line(text: string, extent: real, newline: bool)

  predicate Overflows(c: char, extent: real, f: Layout) {
    f.wordBreak && f.advance(c).Some? && extent + f.advance(c).value > f.width
  }

  function Extended(c: char, extent: real, f: Layout): real {
    if f.advance(c).Some? then extent + f.advance(c).value else extent
  }

  /** Where the line that began at `start` ends, given that it has come to `pos`. */
  function LineEnd(t: string, start: nat, pos: nat, extent: real, f: Layout): (nat, real)
    requires start <= pos <= |t|
    ensures pos <= LineEnd(t, start, pos, extent, f).0 <= |t|
    ensures pos < |t| && t[pos] != '\n' && pos == start ==> start < LineEnd(t, start, pos, extent, f).0
    decreases |t| - pos
  {
    if pos == |t| || t[pos] == '\n' then (pos, extent)
    else if Overflows(t[pos], extent, f) then (if pos == start then pos + 1 else pos, extent)
    else LineEnd(t, start, pos + 1, Extended(t[pos], extent, f), f)
  }

  function Lines(t: string, start: nat, f: Layout): (r: seq<Line>)
    requires start <= |t|
    ensures r != []
    decreases |t| - start
  {
    var (end, extent) := LineEnd(t, start, start, 0.0, f);
    if end == |t| then [Line(t[start..], extent, false)]
    else if t[end] == '\n' then [Line(t[start..end], extent, true)] + Lines(t, end + 1, f)
    else [Line(t[start..end], extent, false)] + Lines(t, end, f)
  }

  /** The first line and the lines after it. */
  lemma FirstLine(t: string, start: nat, f: Layout)
    requires start <= |t|
    ensures var (end, extent) := LineEnd(t, start, start, 0.0, f);
            var lines := Lines(t, start, f);
            var newline := end < |t| && t[end] == '\n';
            && lines[0] == Line(t[start..end], extent, newline)
            && lines[1..] == (if end == |t| then [] else Lines(t, if newline then end + 1 else end, f))
  {
  }

  // ----- the buffer -----

  /** The first `n` characters of a terminated buffer. */
  ghost predicate Terminated(b: seq<char>, n: nat) {
    n < |b| && b[n] == NUL && forall k | 0 <= k < n :: b[k] != NUL
  }

  /** The characters from `start` up to the next terminator. */
  function CString(b: seq<char>, start: nat): string
    decreases |b| - start
  {
    if start >= |b| || b[start] == NUL then [] else [b[start]] + CString(b, start + 1)
  }

  lemma {:induction false} CStringUpTo(b: seq<char>, start: nat, end: nat)
    requires start <= end < |b| && b[end] == NUL
    requires forall k | start <= k < end :: b[k] != NUL
    ensures CString(b, start) == b[start..end]
    decreases end - start
  {
    if start < end {
      CStringUpTo(b, start + 1, end);
      assert b[start..end] == [b[start]] + b[start + 1..end];
    }
  }

  /** One line drawn: its characters and how far to the right of the rectangle's left edge. */
  datatype Drawn = Drawn(text: string, x: real, y: real)

  datatype Alignment = Left | Center | Right

  function XOf(a: Alignment, x: real, width: real, extent: real): real {
    match a
    case Right => x + width - extent
    case Center => x + width / 2.0 - extent / 2.0
    case Left => x
  }

  /** What drawing the lines means: one call each, a line height apart. */
  function Drawing(lines: seq<Line>, a: Alignment, x: real, y: real, height: real, f: Layout): seq<Drawn> {
    if lines == [] then []
    else [Drawn(lines[0].text, XOf(a, x, f.width, lines[0].extent), y)] +
         Drawing(lines[1..], a, x, y - height, height, f)
  }

  lemma DrawingUnfolds(lines: seq<Line>, a: Alignment, x: real, y: real, height: real, f: Layout)
    ensures Drawing([], a, x, y, height, f) == []
    ensures lines != [] ==>
              Drawing(lines, a, x, y, height, f) ==
              [Drawn(lines[0].text, XOf(a, x, f.width, lines[0].extent), y)] +
                  Drawing(lines[1..], a, x, y - height, height, f)
  {
  }

  /** A terminator written at `end` cuts a line out of the buffer. */
  lemma LineCut(whole: seq<char>, n: nat, start: nat, end: nat)
    requires Terminated(whole, n) && start <= end <= n
    ensures CString(whole[end := NUL], start) == whole[..n][start..end]
    ensures whole[end] == NUL <==> end == n
  {
    CStringUpTo(whole[end := NUL], start, end);
    assert whole[..n][start..end] == whole[end := NUL][start..end];
  }

  /** The search for the end of a line. */
  method FindEnd(buf: array<char>, ghost n: nat, start: nat, f: Layout) returns (end: nat, extent: real)
    requires Terminated(buf[..], n) && start <= n
    ensures start <= end <= n && (end, extent) == LineEnd(buf[..n], start, start, 0.0, f)
  {
    var pos := start;
    extent := 0.0;
    ghost var t := buf[..n];
    while buf[pos] != NUL && buf[pos] != '\n'
      invariant start <= pos <= n
      invariant LineEnd(t, start, pos, extent, f) == LineEnd(t, start, start, 0.0, f)
      decreases n - pos
    {
      assert t[pos] == buf[pos];
      var glyph := f.advance(buf[pos]);
      if glyph.Some? {
        if f.wordBreak && extent + glyph.value > f.width {
          if pos == start {
            pos := pos + 1;
          }
          return pos, extent;
        }
        extent := extent + glyph.value;
      }
      pos := pos + 1;
    }
    assert pos < n ==> t[pos] == buf[pos];
    return pos, extent;
  }

  /** The drawing pass.  The buffer is as before when it is done, and in between every line is
      drawn from the buffer itself, up to the terminator just written. */
  method RenderLines(buf: array<char>, ghost n: nat, f: Layout, a: Alignment, x: real, y0: real, height: real)
    returns (drawn: seq<Drawn>)
    requires Terminated(buf[..], n)
    modifies buf
    ensures buf[..] == old(buf[..])
    ensures drawn == Drawing(Lines(buf[..n], 0, f), a, x, y0, height, f)
  {
    hide Lines, LineEnd, XOf, Drawing, CString;
    DrawingUnfolds([], a, x, y0, height, f);
    ghost var (whole, t) := (buf[..], buf[..n]);
    drawn := [];
    var text, y, eos := 0, y0, false;
    while !eos
      invariant buf[..] == whole
      invariant text <= n
      invariant !eos ==>
                  drawn + Drawing(Lines(t, text, f), a, x, y, height, f) == Drawing(Lines(t, 0, f), a, x, y0, height, f)
      invariant eos ==> drawn == Drawing(Lines(t, 0, f), a, x, y0, height, f)
      decreases !eos, n - text
    {
      var scanner, extent := FindEnd(buf, n, text, f);
      ghost var rest := Lines(t, text, f);
      FirstLine(t, text, f);
      DrawingUnfolds(rest, a, x, y, height, f);
      DrawingUnfolds([], a, x, y - height, height, f);
      LineCut(whole, n, text, scanner);
      var c := buf[scanner];
      assert scanner < n ==> c == t[scanner];
      if c == NUL {
        eos := true;
      } else {
        buf[scanner] := NUL;
      }
      assert buf[..] == whole[scanner := NUL];
      var line := CString(buf[..], text);
      drawn := drawn + [Drawn(line, XOf(a, x, f.width, extent), y)];
      buf[scanner] := c;
      assert buf[..] == whole;
      if c == '\n' {
        scanner := scanner + 1;
      }
      text := scanner;
      y := y - height;
      assert !eos ==> rest[1..] == Lines(t, text, f);
      assert eos ==> rest[1..] == [];
    }
  }

  // ----- what the lines are -----

  lemma LineEndAdvances(t: string, start: nat, f: Layout)
    requires start <= |t|
    ensures var end := LineEnd(t, start, start, 0.0, f).0;
            start <= end <= |t| && (end < |t| && t[end] != '\n' ==> start < end)
  {
  }

  /** The lines with the consumed newlines between them. */
  function Rejoined(lines: seq<Line>): string {
    if lines == [] then []
    else lines[0].text + (if lines[0].newline then "\n" else "") + Rejoined(lines[1..])
  }

  lemma Cut(t: string, start: nat, end: nat)
    requires start <= end <= |t|
    ensures t[start..] == t[start..end] + t[end..]
    ensures end == |t| ==> t[start..end] == t[start..]
    ensures end < |t| && t[end] == '\n' ==> t[start..] == t[start..end] + "\n" + t[end + 1..]
  {
  }

  /** Nothing is lost, repeated or moved by breaking a text into lines. */
  lemma {:induction false} LinesRejoin(t: string, start: nat, f: Layout)
    requires start <= |t|
    ensures Rejoined(Lines(t, start, f)) == t[start..]
    decreases |t| - start
  {
    hide Lines, LineEnd;
    FirstLine(t, start, f);
    LineEndAdvances(t, start, f);
    var (end, _) := LineEnd(t, start, start, 0.0, f);
    var newline := end < |t| && t[end] == '\n';
    Cut(t, start, end);
    if end < |t| {
      LinesRejoin(t, if newline then end + 1 else end, f);
    }
  }

  /** The width of a piece of text: the advances of the characters that have a glyph. */
  function Width(s: string, f: Layout): real {
    if s == "" then 0.0 else Extended(s[|s| - 1], Width(s[..|s| - 1], f), f)
  }

  /** A character adds its advance to the width of what is before it, if the font has a glyph for it,
      and the same to the width of what is behind it. */
  lemma {:induction false} WidthAdds(s: string, c: char, f: Layout)
    ensures var a := if f.advance(c).Some? then f.advance(c).value else 0.0;
            Width(s + [c], f) == Width(s, f) + a && Width([c] + s, f) == a + Width(s, f)
    decreases |s|
  {
    assert (s + [c])[..|s|] == s;
    if s == "" {
      assert [c] + s == [c] && [c][..0] == "";
    } else {
      var n := |s| - 1;
      WidthAdds(s[..n], c, f);
      assert ([c] + s)[..n + 1] == [c] + s[..n];
    }
  }

  /** The scan from `pos` on: no newline inside the line, and unless it is one oversize glyph,
      what was added up is its width and within the limit. */
  lemma {:induction false} LineEndFits(t: string, start: nat, pos: nat, extent: real, f: Layout)
    requires start <= pos <= |t| && extent == Width(t[start..pos], f) && f.width >= 0.0
    requires f.wordBreak ==> extent <= f.width
    requires forall k | start <= k < pos :: t[k] != '\n'
    ensures var (end, w) := LineEnd(t, start, pos, extent, f);
            && (forall k | start <= k < end :: t[k] != '\n')
            && ((w == Width(t[start..end], f) && (f.wordBreak ==> w <= f.width)) ||
                (f.wordBreak && end == start + 1 && Width(t[start..end], f) > f.width && w == Width("", f)))
            && (!f.wordBreak ==> end == |t| || t[end] == '\n')
    decreases |t| - pos
  {
    if pos == |t| || t[pos] == '\n' {
    } else {
      assert t[start..pos + 1][..pos - start] == t[start..pos];
      assert Width(t[start..pos + 1], f) == Extended(t[pos], extent, f);
      if !Overflows(t[pos], extent, f) {
        LineEndFits(t, start, pos + 1, Extended(t[pos], extent, f), f);
      }
    }
  }

  ghost predicate Fits(line: Line, f: Layout) {
    (line.extent == Width(line.text, f) && Width(line.text, f) <= f.width) ||
    (|line.text| == 1 && Width(line.text, f) > f.width && line.extent == 0.0)
  }

  /** With word break, every line drawn is no wider than the rectangle, or a single glyph that
      is wider by itself; and no line holds a newline. */
  lemma {:induction false} LinesFit(t: string, start: nat, f: Layout)
    requires start <= |t| && f.wordBreak && f.width >= 0.0
    ensures forall k | 0 <= k < |Lines(t, start, f)| ::
              Fits(Lines(t, start, f)[k], f) && '\n' !in Lines(t, start, f)[k].text
    decreases |t| - start
  {
    hide Lines, LineEnd, Fits;
    FirstLineFits(t, start, f);
    FirstLine(t, start, f);
    LineEndAdvances(t, start, f);
    var (end, _) := LineEnd(t, start, start, 0.0, f);
    var lines := Lines(t, start, f);
    if end < |t| {
      LinesFit(t, if t[end] == '\n' then end + 1 else end, f);
    }
    assert forall k | 1 <= k < |lines| :: lines[k] == lines[1..][k - 1];
  }

  lemma FirstLineFits(t: string, start: nat, f: Layout)
    requires start <= |t| && f.wordBreak && f.width >= 0.0
    ensures Fits(Lines(t, start, f)[0], f) && '\n' !in Lines(t, start, f)[0].text
  {
    hide Lines, LineEnd;
    assert t[start..start] == "";
    LineEndFits(t, start, start, 0.0, f);
    FirstLine(t, start, f);
  }

  // ----- without word break, three ways to count -----

  function Newlines(t: string, pos: nat): nat
    requires pos <= |t|
    decreases |t| - pos
  {
    if pos == |t| then 0 else (if t[pos] == '\n' then 1 else 0) + Newlines(t, pos + 1)
  }

  lemma {:induction false} NoNewlines(t: string, pos: nat, end: nat)
    requires pos <= end <= |t| && forall k | pos <= k < end :: t[k] != '\n'
    ensures Newlines(t, pos) == Newlines(t, end)
    decreases end - pos
  {
    if pos < end {
      NoNewlines(t, pos + 1, end);
    }
  }

  /** The number of lines drawn is one more than the number of newlines. */
  lemma {:induction false} LineCount(t: string, start: nat, f: Layout)
    requires start <= |t| && !f.wordBreak && f.width >= 0.0
    ensures |Lines(t, start, f)| == 1 + Newlines(t, start)
    decreases |t| - start
  {
    assert t[start..start] == "";
    LineEndFits(t, start, start, 0.0, f);
    var (end, _) := LineEnd(t, start, start, 0.0, f);
    NoNewlines(t, start, end);
    if end < |t| {
      LineCount(t, end + 1, f);
    }
  }

  /** New lines the counting pass finds from `pos` on, with `extent` on the current line. */
  function PassOne(t: string, pos: nat, extent: real, f: Layout): nat
    requires pos <= |t|
    decreases |t| - pos
  {
    if pos == |t| then 0
    else if t[pos] == '\n' then 1 + PassOne(t, pos + 1, 0.0, f)
    else if Overflows(t[pos], extent, f) then
      if pos == 0 || t[pos - 1] == '\n'
      then (if pos + 1 == |t| then 0 else 1 + PassOne(t, pos + 2, 0.0, f))
      else 1 + PassOne(t, pos + 1, 0.0, f)
    else PassOne(t, pos + 1, Extended(t[pos], extent, f), f)
  }

  /** The counting pass of RenderText. */
  method CountLines(buf: array<char>, ghost n: nat, f: Layout) returns (lines: nat)
    requires Terminated(buf[..], n)
    ensures lines == 1 + PassOne(buf[..n], 0, 0.0, f)
  {
    ghost var t := buf[..n];
    var pos, extent := 0, 0.0;
    lines := 1;
    while buf[pos] != NUL
      invariant pos <= n
      invariant lines + PassOne(t, pos, extent, f) == 1 + PassOne(t, 0, 0.0, f)
      decreases n - pos
    {
      assert t[pos] == buf[pos];
      var newLine := false;
      if buf[pos] == '\n' {
        newLine := true;
      } else {
        var glyph := f.advance(buf[pos]);
        if glyph.Some? {
          if f.wordBreak && extent + glyph.value > f.width {
            if pos == 0 || buf[pos - 1] == '\n' {
              assert pos > 0 ==> t[pos - 1] == buf[pos - 1];
              pos := pos + 1;
              if buf[pos] == NUL {
                break;
              }
            }
            newLine := true;
          } else {
            extent := extent + glyph.value;
          }
        }
      }
      if newLine {
        lines := lines + 1;
        extent := 0.0;
      }
      if buf[pos] != NUL {
        pos := pos + 1;
      }
    }
  }

  lemma {:induction false} PassOneCount(t: string, pos: nat, extent: real, f: Layout)
    requires pos <= |t| && !f.wordBreak
    ensures PassOne(t, pos, extent, f) == Newlines(t, pos)
    decreases |t| - pos
  {
    if pos < |t| {
      PassOneCount(t, pos + 1, if t[pos] == '\n' then 0.0 else Extended(t[pos], extent, f), f);
    }
  }

  /** The widest line, or 0. */
  function Widest(lines: seq<Line>, f: Layout): real {
    if lines == [] then 0.0 else Max(Width(lines[0].text, f), Widest(lines[1..], f))
  }

  /** The widest line from `pos` on, where the line that holds `pos` has come to `extent`. */
  function MaxWidth(t: string, pos: nat, extent: real, f: Layout): real
    requires pos <= |t|
    decreases |t| - pos
  {
    if pos == |t| then Max(extent, 0.0)
    else if t[pos] == '\n' then Max(extent, MaxWidth(t, pos + 1, 0.0, f))
    else MaxWidth(t, pos + 1, Extended(t[pos], extent, f), f)
  }

  /** CalcuTextSize: the width, and the line count the height is computed from. */
  method TextSize(buf: array<char>, ghost n: nat, f: Layout) returns (width: real, lines: nat)
    requires Terminated(buf[..], n)
    ensures width == MaxWidth(buf[..n], 0, 0.0, f) && lines == 1 + Newlines(buf[..n], 0)
  {
    ghost var t := buf[..n];
    MaxWidthNonNegative(t, 0, 0.0, f);
    var pos, extent := 0, 0.0;
    width, lines := 0.0, 1;
    while buf[pos] != NUL
      invariant pos <= n && width >= 0.0
      invariant lines + Newlines(t, pos) == 1 + Newlines(t, 0)
      invariant Max(width, MaxWidth(t, pos, extent, f)) == MaxWidth(t, 0, 0.0, f)
      decreases n - pos
    {
      assert t[pos] == buf[pos];
      if buf[pos] == '\n' {
        lines := lines + 1;
        width := Max(width, extent);
        extent := 0.0;
      } else {
        var glyph := f.advance(buf[pos]);
        if glyph.Some? {
          extent := extent + glyph.value;
        }
      }
      pos := pos + 1;
    }
    width := Max(width, extent);
  }

  lemma {:induction false} MaxWidthNonNegative(t: string, pos: nat, extent: real, f: Layout)
    requires pos <= |t|
    ensures MaxWidth(t, pos, extent, f) >= 0.0
    decreases |t| - pos
  {
    if pos < |t| {
      MaxWidthNonNegative(t, pos + 1, if t[pos] == '\n' then 0.0 else Extended(t[pos], extent, f), f);
    }
  }

  /** Without word break, the width computed is that of the widest line drawn. */
  lemma {:induction false} WidestLine(t: string, start: nat, pos: nat, f: Layout)
    requires start <= pos <= |t| && !f.wordBreak && f.width >= 0.0
    requires forall k | start <= k < pos :: t[k] != '\n'
    ensures MaxWidth(t, pos, Width(t[start..pos], f), f) == Widest(Lines(t, start, f), f)
    decreases |t| - pos
  {
    hide Lines, LineEnd, Widest, Width;
    WidestUnfolds(Lines(t, start, f), f);
    LineStart(t, start, pos, f);
    FirstLine(t, start, f);
    var lines := Lines(t, start, f);
    if pos == |t| || t[pos] == '\n' {
      LineEndStops(t, start, pos, f);
      if pos < |t| {
        NoWidth(t, pos + 1, f);
        WidestLine(t, pos + 1, pos + 1, f);
      }
    } else {
      NextWidth(t, start, pos, f);
      WidestLine(t, start, pos + 1, f);
    }
  }

  lemma NoWidth(t: string, pos: nat, f: Layout)
    requires pos <= |t|
    ensures Width(t[pos..pos], f) == 0.0
  {
    assert t[pos..pos] == "";
  }

  lemma NextWidth(t: string, start: nat, pos: nat, f: Layout)
    requires start <= pos < |t|
    ensures Width(t[start..pos + 1], f) == Extended(t[pos], Width(t[start..pos], f), f)
  {
    assert t[start..pos + 1][..pos - start] == t[start..pos];
  }

  lemma WidestUnfolds(lines: seq<Line>, f: Layout)
    requires lines != []
    ensures Widest(lines, f) == Max(Width(lines[0].text, f), Widest(lines[1..], f)) && Widest([], f) == 0.0
  {
  }

  lemma LineEndStops(t: string, start: nat, pos: nat, f: Layout)
    requires start <= pos <= |t| && (pos == |t| || t[pos] == '\n')
    ensures forall extent :: LineEnd(t, start, pos, extent, f) == (pos, extent)
  {
  }

  /** Up to the first newline, the scan does not care where it is resumed. */
  lemma {:induction false} LineStart(t: string, start: nat, pos: nat, f: Layout)
    requires start <= pos <= |t| && !f.wordBreak
    requires forall k | start <= k < pos :: t[k] != '\n'
    ensures LineEnd(t, start, start, 0.0, f) == LineEnd(t, start, pos, Width(t[start..pos], f), f)
    decreases pos - start
  {
    if start < pos {
      LineStart(t, start, pos - 1, f);
      assert t[start..pos][..pos - 1 - start] == t[start..pos - 1];
    } else {
      assert t[start..start] == "";
    }
  }

  /** Without word break, the counting pass, the drawing pass and the size computation agree on
      the number of lines, and the computed width is the widest drawn line's. */
  lemma CountsAgree(t: string, f: Layout)
    requires !f.wordBreak && f.width >= 0.0
    ensures 1 + PassOne(t, 0, 0.0, f) == |Lines(t, 0, f)| == 1 + Newlines(t, 0)
    ensures MaxWidth(t, 0, 0.0, f) == Widest(Lines(t, 0, f), f)
  {
    PassOneCount(t, 0, 0.0, f);
    LineCount(t, 0, f);
    assert t[0..0] == "";
    WidestLine(t, 0, 0, f);
  }

  /** With word break the counting pass drops the width of the glyph that starts a new line, so
      it can count fewer lines than are drawn: four glyphs of width 6 in a width of 10. */
  lemma CountsDisagree()
    ensures var f := Layout(_ => Some(6.0), 10.0, true);
            1 + PassOne("aaaa", 0, 0.0, f) == 3 && |Lines("aaaa", 0, f)| == 4
  {
    var (t, f) := ("aaaa", Layout(_ => Some(6.0), 10.0, true));
    assert PassOne(t, 3, 6.0, f) == 1 && PassOne(t, 2, 0.0, f) == 1;
    assert PassOne(t, 1, 6.0, f) == 2;
    assert LineEnd(t, 3, 3, 0.0, f) == (4, 6.0);
    assert LineEnd(t, 2, 2, 0.0, f) == (3, 6.0);
    assert LineEnd(t, 1, 1, 0.0, f) == (2, 6.0);
    assert LineEnd(t, 0, 0, 0.0, f) == (1, 6.0);
    assert |Lines(t, 3, f)| == 1;
    assert |Lines(t, 2, f)| == 2;
    assert |Lines(t, 1, f)| == 3;
  }

  // ----- with word break they differ -----

  function Steps(n: nat, a: real): real { if n == 0 then 0.0 else Steps(n - 1, a) + a }

  lemma {:induction false} StepsGrow(m: nat, n: nat, a: real)
    requires m <= n && a > 0.0
    ensures Steps(m, a) <= Steps(n, a)
    decreases n - m
  {
    if m < n {
      StepsGrow(m, n - 1, a);
    }
  }

  lemma {:induction false} StepsIsProduct(n: nat, a: real)
    ensures Steps(n, a) == Product(n as real, a)
  {
    if n > 0 {
      StepsIsProduct(n - 1, a);
      assert (n - 1) as real * a + a == n as real * a;
    }
  }

  /** `k` glyphs of width `a`, and no more, fit on a line. */
  ghost predicate Filled(k: nat, a: real, f: Layout) {
    f.wordBreak && 0 < k && a > 0.0 && Steps(k, a) <= f.width < Steps(k + 1, a)
  }

  function Product(x: real, a: real): real { x * a }

  lemma ProductGrows(x: real, y: real, a: real)
    requires a > 0.0
    ensures x <= y ==> Product(x, a) <= Product(y, a)
    ensures x < y ==> Product(x, a) < Product(y, a)
  {
    assert (y - x) * a == y * a - x * a;
  }

  lemma LineFilled(a: real, f: Layout) returns (k: nat)
    requires f.wordBreak && 0.0 < a <= f.width
    ensures Filled(k, a, f)
  {
    var q := f.width / a;
    assert Product(q, a) == f.width;
    assert Product(1.0, a) == a;
    hide Product;
    ProductGrows(q, 1.0, a);
    k := q.Floor;
    StepsIsProduct(k, a);
    StepsIsProduct(k + 1, a);
    ProductGrows(k as real, q, a);
    ProductGrows(q, (k + 1) as real, a);
  }

  ghost predicate Same(t: string, c: char, a: real, f: Layout) {
    c != '\n' && f.advance(c) == Some(a) && forall k | 0 <= k < |t| :: t[k] == c
  }

  /** The drawing pass ends a line of one glyph over and over after `k` of them. */
  lemma {:induction false} LineOfSame(t: string, c: char, a: real, k: nat, start: nat, pos: nat, f: Layout)
    requires Same(t, c, a, f) && Filled(k, a, f) && start <= pos <= |t| && pos <= start + k
    ensures LineEnd(t, start, pos, Steps(pos - start, a), f).0 == if start + k <= |t| then start + k else |t|
    decreases |t| - pos
  {
    if pos < |t| && pos < start + k {
      StepsGrow(pos - start + 1, k, a);
      LineOfSame(t, c, a, k, start, pos + 1, f);
    }
  }

  /** The counting pass finds the first overflow there too, but goes on behind that glyph. */
  lemma {:induction false} CountOfSame(t: string, c: char, a: real, k: nat, start: nat, pos: nat, f: Layout)
    requires Same(t, c, a, f) && Filled(k, a, f) && start <= pos <= |t| && pos <= start + k
    ensures PassOne(t, pos, Steps(pos - start, a), f) ==
            if start + k >= |t| then 0 else 1 + PassOne(t, start + k + 1, 0.0, f)
    decreases |t| - pos
  {
    if pos < |t| && pos < start + k {
      StepsGrow(pos - start + 1, k, a);
      CountOfSame(t, c, a, k, start, pos + 1, f);
    }
  }

  ghost predicate Agrees(t: string, f: Layout) {
    |Lines(t, 0, f)| == 1 + PassOne(t, 0, 0.0, f)
  }

  /** One glyph more than two full lines: three lines are drawn and two counted. */
  lemma TwoLinesAndOne(t: string, c: char, a: real, k: nat, f: Layout)
    requires Filled(k, a, f) && |t| == 2 * k + 1 && Same(t, c, a, f)
    ensures |Lines(t, 0, f)| == 3 && 1 + PassOne(t, 0, 0.0, f) == 2
  {
    LineOfSame(t, c, a, k, 0, 0, f);
    LineOfSame(t, c, a, k, k, k, f);
    LineOfSame(t, c, a, k, 2 * k, 2 * k, f);
    CountOfSame(t, c, a, k, 0, 0, f);
    CountOfSame(t, c, a, k, k + 1, k + 1, f);
    FirstLine(t, 0, f);
    FirstLine(t, k, f);
    FirstLine(t, 2 * k, f);
  }

  /** With a font that has a glyph of some width that fits on a line, the counting pass counts
      the drawn lines of every text exactly when words do not break. */
  lemma CountsAgreeIff(c: char, f: Layout)
    requires c != '\n' && f.advance(c).Some? && 0.0 < f.advance(c).value <= f.width
    ensures (forall t: string :: Agrees(t, f)) <==> !f.wordBreak
  {
    if f.wordBreak {
      var a := f.advance(c).value;
      var k := LineFilled(a, f);
      var t := seq(2 * k + 1, _ => c);
      TwoLinesAndOne(t, c, a, k, f);
      assert !Agrees(t, f);
    } else {
      forall t: string
        ensures Agrees(t, f)
      {
        CountsAgree(t, f);
      }
    }
  }

  // ----- where the lines go -----

  datatype VAlignment = Top | Middle | Bottom

  function Distance(a: real, b: real): (r: real)
    ensures r >= 0.0 && (a <= b ==> a + r == b) && (b <= a ==> b + r == a)
  {
    if a < b then b - a else a - b
  }

  /** The top of the first line, for lines of `total` height. */
  function TopOf(v: VAlignment, top: real, bottom: real, total: real): real {
    match v
    case Bottom => bottom + total
    case Middle => top - Distance(top, bottom) / 2.0 + total / 2.0
    case Top => top
  }

  /** The height of the lines counted. */
  function CountedHeight(t: string, height: real, f: Layout): real { height * (1 + PassOne(t, 0, 0.0, f)) as real }

  /** RenderText: lines are counted, then drawn from where that many would begin. */
  method RenderText(buf: array<char>, ghost n: nat, advance: char -> Option<real>, wordBreak: bool, h: Alignment,
                    v: VAlignment,
                    left: real, top: real, right: real, bottom: real, height: real,
                        ascender: real) returns (drawn: seq<Drawn>)
    requires Terminated(buf[..], n)
    modifies buf
    ensures buf[..] == old(buf[..])
    ensures var f := Layout(advance, Distance(left, right), wordBreak);
            drawn == Drawing(Lines(buf[..n], 0, f), h, left,
                             TopOf(v, top, bottom, CountedHeight(buf[..n], height, f)) - ascender, height, f)
    ensures var f := Layout(advance, Distance(left, right), wordBreak);
            && Placed(drawn, Lines(buf[..n], 0, f), h, left, Distance(left, right), height)
            && (v == Top ==> drawn[0].y + ascender == top)
  {
    var f := Layout(advance, Distance(left, right), wordBreak);
    ghost var whole := buf[..];
    assert whole[..n] == buf[..n];
    var lines := CountLines(buf, n, f);
    assert height * lines as real == CountedHeight(buf[..n], height, f);
    drawn := RenderLines(buf, n, f, h, left, TopOf(v, top, bottom, height * lines as real) - ascender, height);
    assert buf[..][..n] == buf[..n];
    ghost var lines0 := Lines(buf[..n], 0, f);
    DrawingPlaced(lines0, h, left, TopOf(v, top, bottom, CountedHeight(buf[..n], height, f)) - ascender, height, f);
  }

  lemma {:induction false} DrawingAt(lines: seq<Line>, k: nat, a: Alignment, x: real, y: real, height: real, f: Layout)
    requires k < |lines|
    ensures |Drawing(lines, a, x, y, height, f)| == |lines|
    ensures Drawing(lines, a, x, y, height, f)[k] ==
            Drawn(lines[k].text, XOf(a, x, f.width, lines[k].extent), y - Product(k as real, height))
    decreases |lines|
  {
    if k > 0 {
      DrawingAt(lines[1..], k - 1, a, x, y - height, height, f);
      assert Product(k as real, height) == Product((k - 1) as real, height) + height;
    } else if |lines| > 1 {
      DrawingAt(lines[1..], 0, a, x, y - height, height, f);
    }
  }

  /** Line `d` stands against the left edge, against the right one, or with the same gap on both
      sides; `extent` is how wide it is drawn. */
  ghost predicate Stands(d: Drawn, a: Alignment, left: real, width: real, extent: real) {
    match a
    case Left => d.x == left
    case Right => d.x + extent == left + width
    case Center => d.x - left == left + width - (d.x + extent)
  }

  /** The lines of a text, one drawn for each, in order, a line height apart. */
  ghost predicate Placed(drawn: seq<Drawn>, lines: seq<Line>, a: Alignment, left: real, width: real, height: real) {
    && |drawn| == |lines| > 0
    && forall k | 0 <= k < |drawn| ::
         && drawn[k].text == lines[k].text && Stands(drawn[k], a, left, width, lines[k].extent)
         && drawn[k].y + k as real * height == drawn[0].y
  }

  lemma DrawingPlaced(lines: seq<Line>, a: Alignment, x: real, y: real, height: real, f: Layout)
    requires lines != []
    ensures Placed(Drawing(lines, a, x, y, height, f), lines, a, x, f.width, height)
    ensures Drawing(lines, a, x, y, height, f)[0].y == y
  {
    hide Drawing;
    DrawingAt(lines, 0, a, x, y, height, f);
    forall k | 0 <= k < |lines|
      ensures var d := Drawing(lines, a, x, y, height, f)[k];
              && d.text == lines[k].text && Stands(d, a, x, f.width, lines[k].extent)
              && d.y + k as real * height == y
    {
      DrawingAt(lines, k, a, x, y, height, f);
    }
  }

  /** The bottom of the last line drawn is on the rectangle's for Bottom, and as far above it as
      the top of the first is below the rectangle's top for Middle, exactly when the counting pass
      counts the lines drawn. */
  lemma TextPlacedIff(t: string, f: Layout, h: Alignment, x: real, top: real, bottom: real, height: real,
                      ascender: real)
    requires height > 0.0 && top >= bottom
    ensures var (lines, total) := (Lines(t, 0, f), CountedHeight(t, height, f));
            var (low, mid) := (Drawing(lines, h, x, TopOf(Bottom, top, bottom, total) - ascender, height, f),
                               Drawing(lines, h, x, TopOf(Middle, top, bottom, total) - ascender, height, f));
            && |low| == |mid| == |lines| > 0
            && (low[|lines| - 1].y + ascender - height == bottom <==> Agrees(t, f))
            && (top - (mid[0].y + ascender) == mid[|lines| - 1].y + ascender - height - bottom <==> Agrees(t, f))
  {
    hide Lines, PassOne, Drawing, Product;
    var lines := Lines(t, 0, f);
    var (m, k) := (|lines|, 1 + PassOne(t, 0, 0.0, f));
    var total := height * k as real;
    var (low, mid) := (TopOf(Bottom, top, bottom, total) - ascender, TopOf(Middle, top, bottom, total) - ascender);
    DrawingAt(lines, m - 1, h, x, low, height, f);
    DrawingAt(lines, m - 1, h, x, mid, height, f);
    DrawingAt(lines, 0, h, x, mid, height, f);
    ProductSteps(m, k, height);
  }

  lemma ProductSteps(m: nat, k: nat, a: real)
    requires m > 0 && a > 0.0
    ensures Product((m - 1) as real, a) + a == Product(m as real, a)
    ensures a * k as real == Product(k as real, a) && Product(0.0, a) == 0.0
    ensures Product(m as real, a) == Product(k as real, a) <==> m == k
  {
    assert (m - 1) as real * a + a == m as real * a;
    assert (m as real - k as real) * a == m as real * a - k as real * a;
  }

  // ----- where words break -----

  /** A line that is ended by neither a newline nor the text is ended by a glyph that no longer
      fitted behind it, or is one oversize glyph. */
  lemma {:induction false} LineEndIsForced(t: string, start: nat, pos: nat, extent: real, f: Layout)
    requires start <= pos <= |t|
    ensures var (end, w) := LineEnd(t, start, pos, extent, f);
            end < |t| && t[end] != '\n' ==>
              || (f.wordBreak && f.advance(t[end]).Some? && w + f.advance(t[end]).value > f.width)
              || (pos == start && end == start + 1 && f.wordBreak && w == extent &&
                  f.advance(t[start]).Some? && extent + f.advance(t[start]).value > f.width)
    decreases |t| - pos
  {
    if pos < |t| && t[pos] != '\n' && !Overflows(t[pos], extent, f) {
      LineEndIsForced(t, start, pos + 1, Extended(t[pos], extent, f), f);
    }
  }

  /** The first line of what is left ends at the text's end, at a newline, or where the next glyph
      would make it wider than the rectangle. */
  lemma LineIsMaximal(t: string, start: nat, f: Layout)
    requires start <= |t| && f.width >= 0.0
    ensures var (line, end) := (Lines(t, start, f)[0], LineEnd(t, start, start, 0.0, f).0);
            && line.text == t[start..end]
            && (end < |t| && t[end] != '\n' ==>
                  f.wordBreak &&
                  ((f.advance(t[end]).Some? && Width(line.text + [t[end]], f) > f.width) ||
                   (|line.text| == 1 && Width(line.text, f) > f.width)))
  {
    hide Lines, LineEnd;
    FirstLine(t, start, f);
    LineEndIsForced(t, start, start, 0.0, f);
    assert t[start..start] == "";
    LineEndFits(t, start, start, 0.0, f);
    var (end, w) := LineEnd(t, start, start, 0.0, f);
    if end < |t| {
      var text := t[start..end];
      if |text| == 1 {
        assert text[..0] == "" && Width(text, f) == Extended(t[start], 0.0, f);
      }
      assert (text + [t[end]])[..|text|] == text;
      assert Width(text + [t[end]], f) == Extended(t[end], Width(text, f), f);
    }
  }

  // ----- the counting pass never counts more than is drawn -----

  /** No glyph goes backwards. */
  ghost predicate Forward(f: Layout) {
    f.width >= 0.0 && forall c :: f.advance(c).Some? ==> f.advance(c).value >= 0.0
  }

  /** The lines drawn behind the one that began at `start` and has come to `pos`. */
  ghost function Behind(t: string, start: nat, pos: nat, extent: real, f: Layout): nat
    requires start <= pos <= |t|
  {
    var (end, _) := LineEnd(t, start, pos, extent, f);
    if end == |t| then 0 else |Lines(t, if t[end] == '\n' then end + 1 else end, f)|
  }

  lemma BehindIs(t: string, start: nat, pos: nat, extent: real, f: Layout)
    requires start <= pos <= |t|
    ensures |Lines(t, pos, f)| == 1 + Behind(t, pos, pos, 0.0, f)
    ensures Behind(t, start, pos, extent, f) ==
            if pos == |t| then 0
            else if t[pos] == '\n' then |Lines(t, pos + 1, f)|
            else if !Overflows(t[pos], extent, f) then Behind(t, start, pos + 1, Extended(t[pos], extent, f), f)
            else if pos != start then |Lines(t, pos, f)|
            else if pos + 1 == |t| then 0
            else |Lines(t, if t[pos + 1] == '\n' then pos + 2 else pos + 1, f)|
  {
    hide Lines;
    FirstLine(t, pos, f);
    assert Lines(t, pos, f) == [Lines(t, pos, f)[0]] + Lines(t, pos, f)[1..];
  }

  /** The beginning of the text, and what stands behind a newline. */
  predicate AtStart(t: string, pos: nat)
    requires pos <= |t|
  {
    pos == 0 || t[pos - 1] == '\n'
  }

  /** Both passes at one place of a line: no newline since it began, nothing added up before. */
  ghost predicate Scanning(t: string, start: nat, pos: nat, extent: real, f: Layout) {
    && start <= pos <= |t| && Forward(f) && extent >= 0.0
    && (start == pos ==> extent == 0.0)
    && forall k | start <= k < pos :: t[k] != '\n'
  }

  lemma PassOneIs(t: string, pos: nat, extent: real, f: Layout)
    requires pos <= |t|
    ensures PassOne(t, pos, extent, f) ==
            if pos == |t| then 0
            else if t[pos] == '\n' then 1 + PassOne(t, pos + 1, 0.0, f)
            else if !Overflows(t[pos], extent, f) then PassOne(t, pos + 1, Extended(t[pos], extent, f), f)
            else if !AtStart(t, pos) then 1 + PassOne(t, pos + 1, 0.0, f)
            else if pos + 1 == |t| then 0
            else 1 + PassOne(t, pos + 2, 0.0, f)
  {
  }

  /** Past one more character and with nothing added up, the counting pass finds no more lines than
      are still drawn. */
  lemma {:induction false} SkippedCount(t: string, start: nat, pos: nat, extent: real, f: Layout)
    requires Scanning(t, start, pos, extent, f) && pos < |t|
    ensures PassOne(t, pos + 1, 0.0, f) <= Behind(t, start, pos, extent, f)
    decreases |t| - pos, |t| - start, 0
  {
    hide PassOne, Behind, Lines, LineEnd;
    BehindIs(t, start, pos, extent, f);
    if t[pos] == '\n' {
      BehindIs(t, pos + 1, pos + 1, 0.0, f);
      AheadCount(t, pos + 1, pos + 1, 0.0, 0.0, f);
    } else if !Overflows(t[pos], extent, f) {
      AheadCount(t, start, pos + 1, 0.0, Extended(t[pos], extent, f), f);
    } else if pos != start {
      BehindIs(t, pos, pos, 0.0, f);
      SkippedCount(t, pos, pos, 0.0, f);
    } else {
      PassOneIs(t, pos + 1, 0.0, f);
      if pos + 1 < |t| {
        if t[pos + 1] == '\n' {
          BehindIs(t, pos + 2, pos + 2, 0.0, f);
          AheadCount(t, pos + 2, pos + 2, 0.0, 0.0, f);
        } else {
          BehindIs(t, pos + 1, pos + 1, 0.0, f);
          AnyCount(t, pos + 1, pos + 1, 0.0, 0.0, f);
        }
      }
    }
  }

  /** Whatever it has added up, it finds at most one line more. */
  lemma {:induction false} AnyCount(t: string, start: nat, pos: nat, counted: real, extent: real, f: Layout)
    requires Scanning(t, start, pos, extent, f) && counted >= 0.0
    ensures PassOne(t, pos, counted, f) <= 1 + Behind(t, start, pos, extent, f)
    decreases |t| - pos, |t| - start, 1
  {
    hide PassOne, Behind, Lines, LineEnd;
    BehindIs(t, start, pos, extent, f);
    PassOneIs(t, pos, counted, f);
    if pos < |t| {
      if t[pos] == '\n' {
        BehindIs(t, pos + 1, pos + 1, 0.0, f);
        AheadCount(t, pos + 1, pos + 1, 0.0, 0.0, f);
      } else if Overflows(t[pos], counted, f) {
        if !AtStart(t, pos) {
          SkippedCount(t, start, pos, extent, f);
        } else if pos + 1 < |t| {
          PairCount(t, start, pos, extent, f);
        }
      } else if !Overflows(t[pos], extent, f) {
        AnyCount(t, start, pos + 1, Extended(t[pos], counted, f), Extended(t[pos], extent, f), f);
      } else {
        assert pos != start;
        BehindIs(t, pos, pos, 0.0, f);
        AnyCount(t, pos, pos, counted, 0.0, f);
      }
    }
  }

  /** The glyph at the start of a line that is skipped together with the one behind it. */
  lemma {:induction false} PairCount(t: string, start: nat, pos: nat, extent: real, f: Layout)
    requires Scanning(t, start, pos, extent, f) && pos + 1 < |t| && AtStart(t, pos) && t[pos] != '\n'
    ensures PassOne(t, pos + 2, 0.0, f) <= Behind(t, start, pos, extent, f)
    ensures Overflows(t[pos], extent, f) ==> 1 + PassOne(t, pos + 2, 0.0, f) <= Behind(t, start, pos, extent, f)
    decreases |t| - pos - 1, |t| + 1, 0
  {
    hide PassOne, Behind, Lines, LineEnd;
    assert start == pos;
    BehindIs(t, start, pos, extent, f);
    if !Overflows(t[pos], extent, f) {
      SkippedCount(t, start, pos + 1, Extended(t[pos], extent, f), f);
    } else if t[pos + 1] == '\n' {
      BehindIs(t, pos + 2, pos + 2, 0.0, f);
      AheadCount(t, pos + 2, pos + 2, 0.0, 0.0, f);
    } else {
      BehindIs(t, pos + 1, pos + 1, 0.0, f);
      SkippedCount(t, pos + 1, pos + 1, 0.0, f);
    }
  }

  /** With no more added up than is drawn, and both at the start of a line or in it, it finds no more
      lines. */
  lemma {:induction false} AheadCount(t: string, start: nat, pos: nat, counted: real, extent: real, f: Layout)
    requires Scanning(t, start, pos, extent, f) && 0.0 <= counted <= extent && (pos == start ==> AtStart(t, pos))
    ensures PassOne(t, pos, counted, f) <= Behind(t, start, pos, extent, f)
    decreases |t| - pos, |t| - start, 1
  {
    hide PassOne, Behind, Lines, LineEnd;
    BehindIs(t, start, pos, extent, f);
    PassOneIs(t, pos, counted, f);
    if pos < |t| {
      if t[pos] == '\n' {
        BehindIs(t, pos + 1, pos + 1, 0.0, f);
        AheadCount(t, pos + 1, pos + 1, 0.0, 0.0, f);
      } else if !Overflows(t[pos], extent, f) {
        AheadCount(t, start, pos + 1, Extended(t[pos], counted, f), Extended(t[pos], extent, f), f);
      } else if AtStart(t, pos) {
        assert start == pos;
        if pos + 1 < |t| {
          PairCount(t, start, pos, extent, f);
        }
      } else {
        BehindIs(t, pos, pos, 0.0, f);
        if Overflows(t[pos], counted, f) {
          SkippedCount(t, pos, pos, 0.0, f);
        } else {
          AnyCount(t, pos, pos, counted, 0.0, f);
        }
      }
    }
  }

  /** The counting pass never counts more lines than are drawn: a text put at the bottom of its
      rectangle, or in its middle, is never drawn too high. */
  lemma NeverCountsMore(t: string, f: Layout)
    requires Forward(f)
    ensures 1 + PassOne(t, 0, 0.0, f) <= |Lines(t, 0, f)|
  {
    BehindIs(t, 0, 0, 0.0, f);
    AheadCount(t, 0, 0, 0.0, 0.0, f);
  }

  /** Oversize glyphs stand alone on their lines, and the counting pass counts each. */
  lemma {:induction false} OversizeLines(t: string, c: char, a: real, start: nat, f: Layout)
    requires Same(t, c, a, f) && f.wordBreak && a > f.width >= 0.0 && start < |t|
    ensures |Lines(t, start, f)| == |t| - start
    decreases |t| - start
  {
    if start + 1 < |t| {
      OversizeLines(t, c, a, start + 1, f);
    }
  }

  lemma {:induction false} OversizeCount(t: string, c: char, a: real, pos: nat, f: Layout)
    requires Same(t, c, a, f) && f.wordBreak && a > f.width >= 0.0 && 0 < pos <= |t|
    ensures PassOne(t, pos, 0.0, f) == |t| - pos
    decreases |t| - pos
  {
    if pos < |t| {
      OversizeCount(t, c, a, pos + 1, f);
    }
  }

  /** So both passes agree on a text of them; at its start, and behind a newline, the counting pass
      skips one and counts with the next. */
  lemma OversizeAgrees(t: string, c: char, a: real, f: Layout)
    requires Same(t, c, a, f) && f.wordBreak && a > f.width >= 0.0 && t != ""
    ensures |Lines(t, 0, f)| == |t| == 1 + PassOne(t, 0, 0.0, f)
  {
    OversizeLines(t, c, a, 0, f);
    if |t| > 2 {
      OversizeCount(t, c, a, 2, f);
    }
  }

  /** Behind a newline the glyph after an oversize one goes uncounted: five lines are drawn, and
      four counted. */
  lemma OversizeSkips(c: char, q: char, f: Layout)
    requires c != '\n' && q != '\n' && f.wordBreak && f.width >= 0.0
    requires f.advance(c).Some? && f.advance(c).value > f.width && f.advance(q) == None
    ensures var t := [q, '\n', c, q, c, q];
            |Lines(t, 0, f)| == 5 && 1 + PassOne(t, 0, 0.0, f) == 4
  {
    var t := [q, '\n', c, q, c, q];
    assert PassOne(t, 5, 0.0, f) == 0;
    assert PassOne(t, 4, 0.0, f) == 1;
    assert PassOne(t, 2, 0.0, f) == 2;
    assert PassOne(t, 1, 0.0, f) == 3;
    assert LineEnd(t, 0, 0, 0.0, f).0 == 1;
    assert LineEnd(t, 2, 2, 0.0, f).0 == 3;
    assert LineEnd(t, 3, 3, 0.0, f).0 == 4;
    assert LineEnd(t, 4, 4, 0.0, f).0 == 5;
    assert LineEnd(t, 5, 5, 0.0, f).0 == 6;
    assert |Lines(t, 5, f)| == 1;
    assert |Lines(t, 4, f)| == 2;
    assert |Lines(t, 3, f)| == 3;
    assert |Lines(t, 2, f)| == 4;
  }
}
