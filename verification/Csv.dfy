/** The CSV decoder with configurable separators, and the text it reads back exactly. */
module Csv {

  type Byte = n: nat | n < 256
  type Text = seq<Byte>
  type Row = seq<Text>
  type Table = seq<Row>

  datatype Config = Config(sep: Text, border: Text, next: Text)

  predicate Usable(cfg: Config) { cfg.sep != [] && cfg.border != [] && cfg.next != [] }

  // ----- the decoder -----

  /** What the decoder remembers between two looks at the text. */
  datatype Scanner = Scanner(inCell: bool, cellBegin: bool, row: Row, cell: Text, dest: Table)

  function EndCell(s: Scanner): Scanner { s.(row := s.row + [s.cell], cell := [], cellBegin := true) }

  function EndRow(s: Scanner): Scanner {
    var t := EndCell(s);
    t.(dest := t.dest + [t.row], row := [])
  }

  /** What is next in the text, given where the decoder is. */
  datatype Token = Separator | Terminator | Opening | Doubling | Closing | Plain

  function TokenAt(view: Text, s: Scanner, cfg: Config): Token {
    if !s.inCell then
      if cfg.sep <= view then Separator
      else if cfg.next <= view then Terminator
      else if s.cellBegin && cfg.border <= view then Opening
      else Plain
    else if cfg.border <= view then
      if cfg.border + cfg.border <= view then Doubling else Closing
    else Plain
  }

  function Width(t: Token, cfg: Config): nat {
    match t
    case Separator => |cfg.sep|
    case Terminator => |cfg.next|
    case Opening => |cfg.border|
    case Closing => |cfg.border|
    case Doubling => 2 * |cfg.border|
    case Plain => 1
  }

  function Absorb(t: Token, first: Byte, s: Scanner, cfg: Config): Scanner {
    match t
    case Separator => EndCell(s)
    case Terminator => EndRow(s)
    case Opening => s.(inCell := true)
    case Closing => s.(inCell := false)
    case Doubling => s.(cell := s.cell + cfg.border)
    case Plain => s.(cell := s.cell + [first], cellBegin := s.inCell && s.cellBegin)
  }

  /** The rest of the scan of `view`. */
  function Scan(view: Text, s: Scanner, cfg: Config): Scanner
    requires Usable(cfg)
    decreases |view|
  {
    if view == [] then s
    else
      var t := TokenAt(view, s, cfg);
      Scan(view[Width(t, cfg)..], Absorb(t, view[0], s, cfg), cfg)
  }

  function Start(dest: Table): Scanner { Scanner(false, true, [], [], dest) }

  predicate EndsWith(src: Text, next: Text) {
    |next| <= |src| && src[|src| - |next|..] == next
  }

  /** The table a text stands for: a last row without a terminator counts too. */
  function Decoded(src: Text, cfg: Config): Table
    requires Usable(cfg)
  {
    var s := Scan(src, Start([]), cfg);
    if EndsWith(src, cfg.next) then s.dest else s.dest + [s.row + [s.cell]]
  }

  /** csv::decode.  The terminator is looked for at the end of the text before anything is
      read, so the text must be at least that long. */
  method Decode(src: Text, before: Table, cfg: Config) returns (ok: bool, dest: Table)
    requires Usable(cfg) ==> |src| >= |cfg.next|
    ensures ok == Usable(cfg)
    ensures dest == if ok then before + Decoded(src, cfg) else before
  {
    hide Scan;
    dest := before;
    if !(|cfg.sep| > 0 && |cfg.border| > 0 && |cfg.next| > 0) {
      return false, dest;
    }
    var view, viewLen := 0, |src|;
    var inCell, cellBegin := false, true;
    var row: Row, cell: Text := [], [];
    var nextEnd := cfg.next <= src[viewLen - |cfg.next|..];
    while viewLen > 0
      invariant 0 <= view <= |src| && viewLen == |src| - view
      invariant Scan(src[view..], Scanner(inCell, cellBegin, row, cell, dest), cfg) == Scan(src, Start(before), cfg)
    {
      var rest := src[view..];
      ghost var (s, from) := (Scanner(inCell, cellBegin, row, cell, dest), view);
      ghost var t := TokenAt(rest, s, cfg);
      ScanStep(rest, s, cfg);
      if !inCell {
        if cfg.sep <= rest {
          view, viewLen := view + |cfg.sep|, viewLen - |cfg.sep|;
          row := row + [cell];
          cell := [];
          cellBegin := true;
        } else if cfg.next <= rest {
          view, viewLen := view + |cfg.next|, viewLen - |cfg.next|;
          row := row + [cell];
          cell := [];
          dest := dest + [row];
          row := [];
          cellBegin := true;
        } else if cellBegin && cfg.border <= rest {
          view, viewLen := view + |cfg.border|, viewLen - |cfg.border|;
          inCell := true;
        } else {
          cell := cell + [rest[0]];
          view, viewLen := view + 1, viewLen - 1;
          cellBegin := false;
        }
      } else if cfg.border <= rest {
        TwiceBorder(rest, cfg);
        if viewLen >= 2 * |cfg.border| && cfg.border <= rest[|cfg.border|..] {
          cell := cell + cfg.border;
          view, viewLen := view + 2 * |cfg.border|, viewLen - 2 * |cfg.border|;
        } else {
          view, viewLen := view + |cfg.border|, viewLen - |cfg.border|;
          inCell := false;
        }
      } else {
        cell := cell + [rest[0]];
        view, viewLen := view + 1, viewLen - 1;
      }
      assert Scanner(inCell, cellBegin, row, cell, dest) == Absorb(t, rest[0], s, cfg);
      assert view == from + Width(t, cfg);
      DropDrop(src, from, Width(t, cfg));
    }
    assert before + [] == before;
    ScanAppends(src, before, Start([]), cfg);
    assert nextEnd == EndsWith(src, cfg.next);
    ScanNothing(Scanner(inCell, cellBegin, row, cell, dest), cfg);
    assert src[view..] == [];
    if !nextEnd {
      row := row + [cell];
      dest := dest + [row];
    }
    return true, dest;
  }

  lemma ScanStep(view: Text, s: Scanner, cfg: Config)
    requires Usable(cfg) && view != []
    ensures Width(TokenAt(view, s, cfg), cfg) <= |view|
    ensures var t := TokenAt(view, s, cfg);
            Scan(view, s, cfg) == Scan(view[Width(t, cfg)..], Absorb(t, view[0], s, cfg), cfg)
  {
  }

  lemma ScanNothing(s: Scanner, cfg: Config)
    requires Usable(cfg)
    ensures Scan([], s, cfg) == s
  {
  }

  lemma DropDrop(src: Text, a: nat, b: nat)
    requires a + b <= |src|
    ensures src[a..][b..] == src[a + b..]
  {
  }

  lemma TwiceBorder(rest: Text, cfg: Config)
    ensures cfg.border + cfg.border <= rest <==>
            |rest| >= 2 * |cfg.border| && cfg.border <= rest && cfg.border <= rest[|cfg.border|..]
  {
  }

  /** Rows already there stay in front. */
  lemma {:induction false} ScanAppends(view: Text, before: Table, s: Scanner, cfg: Config)
    requires Usable(cfg)
    ensures Scan(view, s.(dest := before + s.dest), cfg) ==
            Scan(view, s, cfg).(dest := before + Scan(view, s, cfg).dest)
    decreases |view|
  {
    if view != [] {
      var (t, s') := (TokenAt(view, s, cfg), s.(dest := before + s.dest));
      assert TokenAt(view, s', cfg) == t;
      var u := Absorb(t, view[0], s, cfg);
      assert Absorb(t, view[0], s', cfg) == u.(dest := before + u.dest);
      ScanAppends(view[Width(t, cfg)..], before, u, cfg);
    }
  }

  // ----- the text that reads back -----

  /** One field of a text: bare, or between borders, with more of it bare behind them. */
  datatype Field = Bare(tail: Text) | Quoted(text: Text, tail: Text)

  type Fields = seq<Field>

  function ValueOf(f: Field): Text { if f.Quoted? then f.text + f.tail else f.tail }

  function TextsOf(row: Fields): Row { seq(|row|, k requires 0 <= k < |row| => ValueOf(row[k])) }

  function TableOf(rows: seq<Fields>): Table { seq(|rows|, k requires 0 <= k < |rows| => TextsOf(rows[k])) }

  /** The bytes of a field with every border written twice. */
  function Doubled(text: Text, b: Text): Text
    requires b != []
    decreases |text|
  {
    if text == [] then []
    else if b <= text then b + b + Doubled(text[|b|..], b)
    else [text[0]] + Doubled(text[1..], b)
  }

  function FieldText(f: Field, b: Text): Text
    requires b != []
  {
    if f.Quoted? then b + Doubled(f.text, b) + b + f.tail else f.tail
  }

  function RowText(row: Fields, cfg: Config): Text
    requires Usable(cfg)
  {
    if row == [] then []
    else if |row| == 1 then FieldText(row[0], cfg.border)
    else FieldText(row[0], cfg.border) + cfg.sep + RowText(row[1..], cfg)
  }

  /** Rows one after the other, each ended by the terminator. */
  function TableText(rows: seq<Fields>, cfg: Config): Text
    requires Usable(cfg)
  {
    if rows == [] then [] else RowText(rows[0], cfg) + cfg.next + TableText(rows[1..], cfg)
  }

  /** A border that does not overlap itself, as no single byte does. */
  ghost predicate SelfFree(b: Text) {
    forall n | 0 < n < |b| :: b[n..] != b[..|b| - n]
  }

  /** Such a border, whose first byte neither separator begins with, and a cell separator that is
      not the beginning of the terminator. */
  ghost predicate Separable(cfg: Config) {
    && Usable(cfg) && SelfFree(cfg.border)
    && cfg.sep[0] != cfg.border[0] && cfg.next[0] != cfg.border[0]
    && !(cfg.sep <= cfg.next)
  }

  /** Neither separator occurs from inside `text` on, with `rest` behind it. */
  ghost predicate Clear(text: Text, rest: Text, cfg: Config) {
    forall k | 0 <= k < |text| :: !(cfg.sep <= (text + rest)[k..]) && !(cfg.next <= (text + rest)[k..])
  }

  /** What is bare must be clear of separators, and not begin with a border. */
  ghost predicate FieldFits(f: Field, rest: Text, cfg: Config) {
    Clear(f.tail, rest, cfg) && (f.tail != [] ==> !(cfg.border <= f.tail + rest))
  }

  /** What stands behind the first field of a row. */
  function BehindFirst(row: Fields, rest: Text, cfg: Config): Text
    requires Usable(cfg) && row != []
  {
    if |row| == 1 then rest else cfg.sep + (RowText(row[1..], cfg) + rest)
  }

  ghost predicate RowFits(row: Fields, rest: Text, cfg: Config)
    requires Usable(cfg)
    decreases |row|
  {
    && row != [] && FieldFits(row[0], BehindFirst(row, rest, cfg), cfg)
    && (|row| > 1 ==> RowFits(row[1..], rest, cfg))
  }

  /** Where the terminator begins the cell separator, what is behind a terminator must not
      complete one. */
  ghost predicate AfterRow(rest: Text, cfg: Config) {
    !(cfg.sep <= cfg.next + rest)
  }

  ghost predicate RowsFit(rows: seq<Fields>, rest: Text, cfg: Config)
    requires Usable(cfg)
    decreases |rows|
  {
    rows == [] ||
    (var tail := TableText(rows[1..], cfg) + rest;
     RowFits(rows[0], cfg.next + tail, cfg) && AfterRow(tail, cfg) && RowsFit(rows[1..], rest, cfg))
  }

  /** The decoder between two cells. */
  predicate AtCell(s: Scanner) { !s.inCell && s.cellBegin && s.cell == [] }

  /** What may follow a field. */
  ghost predicate FieldEnd(rest: Text, cfg: Config) {
    rest == [] || cfg.sep <= rest || cfg.next <= rest
  }

  /** Up to the first border to be doubled, or the closing one, a quoted text is itself. */
  lemma {:induction false} FirstInsertion(text: Text, b: Text) returns (p: nat)
    requires b != []
    ensures p <= |text| && text[..p] + b <= Doubled(text, b) + b
    ensures p == 0 <==> text == [] || b <= text
    decreases |text|
  {
    DoubledBegins(text, b);
    if text == [] || b <= text {
      p := 0;
      assert text[..p] + b == b;
    } else {
      hide Doubled;
      var q := FirstInsertion(text[1..], b);
      p := q + 1;
      InFront(text[0], text[1..][..q] + b, Doubled(text[1..], b) + b);
      assert text[..p] + b == [text[0]] + (text[1..][..q] + b);
    }
  }

  lemma DoubledBegins(text: Text, b: Text)
    requires b != []
    ensures if text == [] || b <= text then b <= Doubled(text, b) + b
            else Doubled(text, b) + b == [text[0]] + (Doubled(text[1..], b) + b)
  {
    if text != [] && b <= text {
      assert Doubled(text, b) + b == b + (b + Doubled(text[|b|..], b) + b);
    }
  }

  lemma InFront(c: Byte, part: Text, whole: Text)
    requires part <= whole
    ensures [c] + part <= [c] + whole
  {
  }

  /** Inside the quotes a border is only seen where one was written. */
  lemma NoBorderHere(text: Text, rest: Text, b: Text)
    requires b != [] && SelfFree(b) && text != [] && !(b <= text)
    ensures !(b <= Doubled(text, b) + b + rest)
  {
    var p := FirstInsertion(text, b);
    var view := Doubled(text, b) + b + rest;
    assert view[..p + |b|] == text[..p] + b by {
      assert view[..p + |b|] == (Doubled(text, b) + b)[..p + |b|];
    }
    if b <= view {
      TwoPlaces(text[..p], b, view);
      assert false;
    }
  }

  /** A border at the front of a text that has one further on, too. */
  lemma TwoPlaces(front: Text, b: Text, view: Text)
    requires front + b <= view && b <= view
    ensures if |b| <= |front| then front[..|b|] == b else b[|front|..] == b[..|b| - |front|]
  {
    var p := |front|;
    assert view[..p + |b|] == front + b && view[..|b|] == b;
    if |b| <= p {
      assert front[..|b|] == view[..p + |b|][..|b|] == view[..|b|];
    } else {
      assert b[p..] == view[..|b|][p..] == view[..p + |b|][p..|b|] == b[..|b| - p];
    }
  }

  lemma {:induction false} ScanQuoted(text: Text, rest: Text, s: Scanner, cfg: Config)
    requires Separable(cfg) && s.inCell && !(cfg.border <= rest)
    ensures Scan(Doubled(text, cfg.border) + cfg.border + rest, s, cfg) ==
            Scan(rest, s.(inCell := false, cell := s.cell + text), cfg)
    decreases |text|
  {
    hide Scan, SelfFree, TokenAt, Absorb, Width;
    var b := cfg.border;
    var view := Doubled(text, b) + b + rest;
    if text == [] {
      ClosingBorder(rest, s, cfg);
      assert view == b + rest && s.cell + text == s.cell;
    } else if b <= text {
      var tail := Doubled(text[|b|..], b) + b + rest;
      assert view == b + b + tail;
      DoubledBorder(tail, s, cfg);
      ScanQuoted(text[|b|..], rest, s.(cell := s.cell + b), cfg);
      assert s.cell + b + text[|b|..] == s.cell + text;
    } else {
      var tail := Doubled(text[1..], b) + b + rest;
      assert view == [text[0]] + tail;
      NoBorderHere(text, rest, b);
      PlainByte(text[0], tail, s, cfg);
      ScanQuoted(text[1..], rest, s.(cell := s.cell + [text[0]]), cfg);
      assert s.cell + [text[0]] + text[1..] == s.cell + text;
    }
  }

  /** A border that no border follows closes. */
  lemma ClosingBorder(rest: Text, s: Scanner, cfg: Config)
    requires Usable(cfg) && s.inCell && !(cfg.border <= rest)
    ensures Scan(cfg.border + rest, s, cfg) == Scan(rest, s.(inCell := false), cfg)
  {
    hide Scan;
    var (b, view) := (cfg.border, cfg.border + rest);
    assert view[|b|..] == rest && b <= view;
    TwiceBorder(view, cfg);
    assert TokenAt(view, s, cfg) == Closing;
    ScanStep(view, s, cfg);
  }

  /** Two borders inside quotes are one border of the text. */
  lemma DoubledBorder(rest: Text, s: Scanner, cfg: Config)
    requires Usable(cfg) && s.inCell
    ensures Scan(cfg.border + cfg.border + rest, s, cfg) == Scan(rest, s.(cell := s.cell + cfg.border), cfg)
  {
    hide Scan;
    var (b, view) := (cfg.border, cfg.border + cfg.border + rest);
    assert view == b + (b + rest) && b <= view && b + b <= view && view[2 * |b|..] == rest;
    assert TokenAt(view, s, cfg) == Doubling;
    ScanStep(view, s, cfg);
  }

  /** A byte inside quotes with which no border begins. */
  lemma PlainByte(c: Byte, rest: Text, s: Scanner, cfg: Config)
    requires Usable(cfg) && s.inCell && !(cfg.border <= [c] + rest)
    ensures Scan([c] + rest, s, cfg) == Scan(rest, s.(cell := s.cell + [c]), cfg)
  {
    hide Scan;
    var view := [c] + rest;
    assert view[1..] == rest;
    assert TokenAt(view, s, cfg) == Plain;
    ScanStep(view, s, cfg);
  }

  /** A border where a cell begins opens. */
  lemma OpeningBorder(rest: Text, s: Scanner, cfg: Config)
    requires Usable(cfg) && !s.inCell && s.cellBegin
    requires cfg.sep[0] != cfg.border[0] && cfg.next[0] != cfg.border[0]
    ensures Scan(cfg.border + rest, s, cfg) == Scan(rest, s.(inCell := true), cfg)
  {
    hide Scan;
    var (b, view) := (cfg.border, cfg.border + rest);
    assert view[|b|..] == rest && b <= view && view[0] == b[0];
    assert TokenAt(view, s, cfg) == Opening;
    ScanStep(view, s, cfg);
  }

  /** What follows a field does not begin like a border. */
  lemma EndIsNoBorder(rest: Text, cfg: Config)
    requires Separable(cfg) && FieldEnd(rest, cfg)
    ensures !(cfg.border <= rest)
  {
    assert rest != [] ==> rest[0] == cfg.sep[0] || rest[0] == cfg.next[0];
    assert rest == [] || rest[0] != cfg.border[0];
  }

  lemma {:induction false} ScanBare(text: Text, rest: Text, s: Scanner, cfg: Config)
    requires Usable(cfg) && !s.inCell && Clear(text, rest, cfg)
    requires s.cellBegin && text != [] ==> !(cfg.border <= text + rest)
    ensures Scan(text + rest, s, cfg) ==
            Scan(rest, s.(cell := s.cell + text, cellBegin := s.cellBegin && text == []), cfg)
    decreases |text|
  {
    hide Scan;
    var view := text + rest;
    if text == [] {
      assert view == rest;
      assert s.cell + text == s.cell;
    } else {
      var tail := text[1..];
      assert view[0] == text[0] && view[0..] == view && view[1..] == tail + rest;
      assert TokenAt(view, s, cfg) == Plain;
      ScanStep(view, s, cfg);
      assert forall k | 0 <= k < |tail| :: (tail + rest)[k..] == view[k + 1..];
      ScanBare(tail, rest, s.(cell := s.cell + [text[0]], cellBegin := false), cfg);
      assert s.cell + [text[0]] + tail == s.cell + text;
    }
  }

  /** A whole field leaves its text in the cell, whatever the flag says about its beginning. */
  lemma ScanField(f: Field, rest: Text, s: Scanner, cfg: Config) returns (begin: bool)
    requires Separable(cfg) && AtCell(s) && FieldFits(f, rest, cfg) && FieldEnd(rest, cfg)
    ensures Scan(FieldText(f, cfg.border) + rest, s, cfg) == Scan(rest, s.(cell := ValueOf(f), cellBegin := begin), cfg)
  {
    hide Scan, Clear, SelfFree;
    var (b, behind) := (cfg.border, f.tail + rest);
    begin := f.tail == [];
    EndIsNoBorder(rest, cfg);
    assert f.tail == [] ==> behind == rest;
    if f.Quoted? {
      var inner := Doubled(f.text, b) + b + behind;
      assert FieldText(f, b) + rest == b + inner;
      OpeningBorder(inner, s, cfg);
      ScanQuoted(f.text, behind, s.(inCell := true), cfg);
      assert [] + f.text == f.text;
      ScanBare(f.tail, rest, s.(cell := f.text), cfg);
    } else {
      ScanBare(f.tail, rest, s, cfg);
      assert [] + f.tail == f.tail;
    }
  }

  lemma ScanSeparator(rest: Text, s: Scanner, cfg: Config)
    requires Usable(cfg) && !s.inCell
    ensures Scan(cfg.sep + rest, s, cfg) == Scan(rest, EndCell(s), cfg)
  {
    assert (cfg.sep + rest)[|cfg.sep|..] == rest;
  }

  lemma ScanTerminator(rest: Text, s: Scanner, cfg: Config)
    requires Usable(cfg) && !s.inCell && AfterRow(rest, cfg)
    ensures Scan(cfg.next + rest, s, cfg) == Scan(rest, EndRow(s), cfg)
  {
    assert (cfg.next + rest)[|cfg.next|..] == rest;
  }

  lemma FourParts(a: Text, b: Text, c: Text, d: Text)
    ensures a + b + c + d == a + (b + (c + d))
  {
  }

  lemma RowTextCons(row: Fields, rest: Text, cfg: Config)
    requires Usable(cfg) && row != []
    ensures RowText(row, cfg) + rest == FieldText(row[0], cfg.border) + BehindFirst(row, rest, cfg)
  {
    if |row| > 1 {
      FourParts(FieldText(row[0], cfg.border), cfg.sep, RowText(row[1..], cfg), rest);
    }
  }

  lemma TableTextCons(rows: seq<Fields>, rest: Text, cfg: Config)
    requires Usable(cfg) && rows != []
    ensures TableText(rows, cfg) + rest == RowText(rows[0], cfg) + (cfg.next + (TableText(rows[1..], cfg) + rest))
  {
    FourParts(RowText(rows[0], cfg), cfg.next, TableText(rows[1..], cfg), rest);
  }

  lemma TextsCons(row: Fields)
    requires row != []
    ensures TextsOf(row) == [ValueOf(row[0])] + TextsOf(row[1..])
  {
  }

  lemma TableCons(rows: seq<Fields>)
    requires rows != []
    ensures TableOf(rows) == [TextsOf(rows[0])] + TableOf(rows[1..])
  {
  }

  /** The texts `texts` in the row, the last of them still in the cell. */
  predicate Holding(s: Scanner, s': Scanner, texts: Row) {
    texts != [] && !s'.inCell && s'.dest == s.dest &&
    s'.row + [s'.cell] == s.row + texts
  }

  /** The fields of a row, the last one still in the cell. */
  lemma {:induction false} ScanRow(row: Fields, rest: Text, s: Scanner, cfg: Config) returns (s': Scanner)
    requires Separable(cfg) && AtCell(s) && RowFits(row, rest, cfg) && (rest == [] || cfg.next <= rest)
    ensures Scan(RowText(row, cfg) + rest, s, cfg) == Scan(rest, s', cfg)
    ensures Holding(s, s', TextsOf(row))
    decreases |row|
  {
    hide Scan, FieldText, TextsOf, FieldFits, SelfFree, ValueOf;
    TextsCons(row);
    RowTextCons(row, rest, cfg);
    if |row| == 1 {
      var begin := ScanField(row[0], rest, s, cfg);
      s' := s.(cell := ValueOf(row[0]), cellBegin := begin);
      TextsNone();
      assert TextsOf(row) == [ValueOf(row[0])];
    } else {
      var tail := RowText(row[1..], cfg) + rest;
      StartsWith(cfg.sep, tail);
      var begin := ScanField(row[0], cfg.sep + tail, s, cfg);
      var t := s.(cell := ValueOf(row[0]), cellBegin := begin);
      ScanSeparator(tail, t, cfg);
      s' := ScanRow(row[1..], rest, EndCell(t), cfg);
      assert s.row + ([ValueOf(row[0])] + TextsOf(row[1..])) == s.row + [ValueOf(row[0])] + TextsOf(row[1..]);
    }
  }

  lemma TextsNone()
    ensures TextsOf([]) == [] && TableOf([]) == []
  {
  }

  lemma StartsWith(a: Text, b: Text)
    ensures a <= a + b
  {
  }

  /** Complete rows. */
  lemma {:induction false} ScanRows(rows: seq<Fields>, rest: Text, s: Scanner, cfg: Config)
    requires Separable(cfg) && AtCell(s) && s.row == [] && RowsFit(rows, rest, cfg)
    ensures Scan(TableText(rows, cfg) + rest, s, cfg) == Scan(rest, s.(dest := s.dest + TableOf(rows)), cfg)
    decreases |rows|
  {
    hide Scan, RowText, TextsOf, TableOf, RowFits, AfterRow, SelfFree;
    if rows == [] {
      TextsNone();
      assert TableText(rows, cfg) + rest == rest;
      assert s.dest + TableOf(rows) == s.dest;
    } else {
      var (row, tail) := (rows[0], TableText(rows[1..], cfg) + rest);
      TableTextCons(rows, rest, cfg);
      StartsWith(cfg.next, tail);
      var t := ScanRow(row, cfg.next + tail, s, cfg);
      ScanTerminator(tail, t, cfg);
      assert t.row + [t.cell] == TextsOf(row);
      var u := EndRow(t);
      assert u == s.(dest := s.dest + [TextsOf(row)]);
      ScanRows(rows[1..], rest, u, cfg);
      TableCons(rows);
      assert s.dest + [TextsOf(row)] + TableOf(rows[1..]) == s.dest + TableOf(rows);
    }
  }

  /** Printing a table of non-empty rows and decoding the text gives the table back: whatever
      bytes stand between borders, and whatever bytes stand bare as long as no separator occurs. */
  lemma RoundTrip(rows: seq<Fields>, cfg: Config)
    requires Separable(cfg) && rows != [] && RowsFit(rows, [], cfg)
    ensures |TableText(rows, cfg)| >= |cfg.next|
    ensures Decoded(TableText(rows, cfg), cfg) == TableOf(rows)
  {
    hide RowsFit, TableOf;
    var text := TableText(rows, cfg);
    ScanRows(rows, [], Start([]), cfg);
    assert text + [] == text;
    assert [] + TableOf(rows) == TableOf(rows);
    TextEndsWithNext(rows, cfg);
  }

  lemma {:induction false} TextEndsWithNext(rows: seq<Fields>, cfg: Config)
    requires Usable(cfg) && rows != []
    ensures EndsWith(TableText(rows, cfg), cfg.next)
    decreases |rows|
  {
    hide RowText;
    var text := TableText(rows, cfg);
    var tail := TableText(rows[1..], cfg);
    if |rows| == 1 {
      assert text == RowText(rows[0], cfg) + cfg.next;
    } else {
      TextEndsWithNext(rows[1..], cfg);
      assert text == RowText(rows[0], cfg) + cfg.next + tail;
      assert text[|text| - |cfg.next|..] == tail[|tail| - |cfg.next|..];
    }
  }

  /** The same without the last terminator, as some programs write it, exactly when the text
      does not happen to end like one. */
  lemma RoundTripUnterminated(rows: seq<Fields>, last: Fields, cfg: Config)
    requires Separable(cfg) && RowsFit(rows, RowText(last, cfg), cfg) && RowFits(last, [], cfg)
    ensures Decoded(TableText(rows, cfg) + RowText(last, cfg), cfg) == TableOf(rows) + [TextsOf(last)] <==>
            !EndsWith(TableText(rows, cfg) + RowText(last, cfg), cfg.next)
  {
    hide RowsFit, RowFits, RowText;
    var text := TableText(rows, cfg) + RowText(last, cfg);
    ScanRows(rows, RowText(last, cfg), Start([]), cfg);
    var s := Start([]).(dest := [] + TableOf(rows));
    var t := ScanRow(last, [], s, cfg);
    assert RowText(last, cfg) + [] == RowText(last, cfg);
    assert [] + TextsOf(last) == TextsOf(last);
    assert [] + TableOf(rows) == TableOf(rows);
  }

  /** A last row of one empty bare field is never read back: its text ends where the row before
      it ended. */
  lemma EmptyLastRowLost(rows: seq<Fields>, cfg: Config)
    requires Separable(cfg) && rows != [] && RowsFit(rows, [], cfg)
    ensures var last := [Bare([])];
            && RowFits(last, [], cfg)
            && EndsWith(TableText(rows, cfg) + RowText(last, cfg), cfg.next)
            && Decoded(TableText(rows, cfg) + RowText(last, cfg), cfg) == TableOf(rows)
  {
    hide Decoded, TableOf, RowsFit;
    var last := [Bare([])];
    assert TableText(rows, cfg) + RowText(last, cfg) == TableText(rows, cfg);
    TextEndsWithNext(rows, cfg);
    RoundTrip(rows, cfg);
  }

  /** Without a border to close it, a quoted text runs to the end of what there is. */
  lemma {:induction false} ScanUnclosed(text: Text, s: Scanner, cfg: Config)
    requires Separable(cfg) && s.inCell
    ensures Scan(Doubled(text, cfg.border), s, cfg) == s.(cell := s.cell + text)
    decreases |text|
  {
    hide Scan, SelfFree, TokenAt, Absorb, Width;
    var b := cfg.border;
    if text == [] {
      ScanNothing(s, cfg);
      assert s.cell + text == s.cell;
    } else if b <= text {
      DoubledBorder(Doubled(text[|b|..], b), s, cfg);
      ScanUnclosed(text[|b|..], s.(cell := s.cell + b), cfg);
      assert s.cell + b + text[|b|..] == s.cell + text;
    } else {
      var tail := Doubled(text[1..], b);
      NoBorderHere(text, [], b);
      assert Doubled(text, b) == [text[0]] + tail;
      assert Doubled(text, b) + b + [] == Doubled(text, b) + b;
      PrefixesExtend(b, Doubled(text, b), b);
      PlainByte(text[0], tail, s, cfg);
      ScanUnclosed(text[1..], s.(cell := s.cell + [text[0]]), cfg);
      assert s.cell + [text[0]] + text[1..] == s.cell + text;
    }
  }

  lemma PrefixesExtend(a: Text, b: Text, c: Text)
    ensures a <= b ==> a <= b + c
  {
  }

  /** A field that is opened and never closed takes all that follows, separators too; and it is
      dropped, with its row, exactly when that happens to end like a row. */
  lemma UnclosedField(rows: seq<Fields>, text: Text, cfg: Config)
    requires Separable(cfg) && RowsFit(rows, cfg.border + Doubled(text, cfg.border), cfg)
    ensures var src := TableText(rows, cfg) + (cfg.border + Doubled(text, cfg.border));
            Decoded(src, cfg) == if EndsWith(src, cfg.next) then TableOf(rows) else TableOf(rows) + [[text]]
  {
    hide Scan, RowsFit, TableOf, SelfFree;
    var last := cfg.border + Doubled(text, cfg.border);
    ScanRows(rows, last, Start([]), cfg);
    assert [] + TableOf(rows) == TableOf(rows);
    OpeningBorder(Doubled(text, cfg.border), Start(TableOf(rows)), cfg);
    ScanUnclosed(text, Start(TableOf(rows)).(inCell := true), cfg);
    assert [] + text == text && [] + [text] == [text];
  }

  // ----- fields that fit wherever they stand -----

  /** Neither is the beginning of the other. */
  predicate Unlike(a: Text, b: Text) { !(a <= b) && !(b <= a) }

  /** No end of what is bare could begin a separator, nor all of it a border. */
  ghost predicate FieldPlain(f: Field, cfg: Config) {
    && (forall k | 0 <= k < |f.tail| :: Unlike(f.tail[k..], cfg.sep) && Unlike(f.tail[k..], cfg.next))
    && (f.tail != [] ==> Unlike(f.tail, cfg.border))
  }

  ghost predicate TablePlain(rows: seq<Fields>, cfg: Config) {
    forall j, k | 0 <= j < |rows| && 0 <= k < |rows[j]| :: FieldPlain(rows[j][k], cfg)
  }

  lemma UnlikeBehind(a: Text, b: Text, rest: Text)
    requires Unlike(a, b)
    ensures !(b <= a + rest)
  {
    PrefixesCompare(a, b, a + rest);
    assert a <= a + rest;
  }

  lemma PrefixesCompare(a: Text, b: Text, view: Text)
    ensures a <= view && b <= view ==> a <= b || b <= a
  {
    if a <= view && b <= view {
      assert a == view[..|a|] && b == view[..|b|];
    }
  }

  lemma PlainFits(f: Field, rest: Text, cfg: Config)
    requires FieldPlain(f, cfg)
    ensures FieldFits(f, rest, cfg)
  {
    forall k | 0 <= k < |f.tail|
      ensures !(cfg.sep <= (f.tail + rest)[k..]) && !(cfg.next <= (f.tail + rest)[k..])
    {
      assert (f.tail + rest)[k..] == f.tail[k..] + rest;
      UnlikeBehind(f.tail[k..], cfg.sep, rest);
      UnlikeBehind(f.tail[k..], cfg.next, rest);
    }
    if f.tail != [] {
      UnlikeBehind(f.tail, cfg.border, rest);
    }
  }

  lemma {:induction false} PlainRowFits(row: Fields, rest: Text, cfg: Config)
    requires Usable(cfg) && row != [] && forall k | 0 <= k < |row| :: FieldPlain(row[k], cfg)
    ensures RowFits(row, rest, cfg)
    decreases |row|
  {
    hide FieldPlain, FieldFits;
    PlainFits(row[0], BehindFirst(row, rest, cfg), cfg);
    if |row| > 1 {
      PlainRowFits(row[1..], rest, cfg);
    }
  }

  /** Wherever the terminator does not begin the cell separator, or every row begins with a
      border that does not occur in it, a table of such fields can be written. */
  lemma {:induction false} PlainRowsFit(rows: seq<Fields>, cfg: Config)
    requires Separable(cfg) && TablePlain(rows, cfg) && forall j | 0 <= j < |rows| :: rows[j] != []
    requires !(cfg.next <= cfg.sep) || (cfg.border[0] !in cfg.sep && forall j | 0 <= j < |rows| :: rows[j][0].Quoted?)
    ensures RowsFit(rows, [], cfg)
    decreases |rows|
  {
    hide FieldPlain, SelfFree, RowFits;
    if rows != [] {
      var tail := TableText(rows[1..], cfg) + [];
      assert forall k | 0 <= k < |rows[0]| :: FieldPlain(rows[0][k], cfg);
      PlainRowFits(rows[0], cfg.next + tail, cfg);
      assert forall j | 0 <= j < |rows| - 1 :: rows[1..][j] == rows[j + 1];
      PlainRowsFit(rows[1..], cfg);
      NothingCompleted(rows[1..], cfg);
    }
  }

  lemma NothingCompleted(rows: seq<Fields>, cfg: Config)
    requires Separable(cfg) && forall j | 0 <= j < |rows| :: rows[j] != []
    requires !(cfg.next <= cfg.sep) || (cfg.border[0] !in cfg.sep && forall j | 0 <= j < |rows| :: rows[j][0].Quoted?)
    ensures AfterRow(TableText(rows, cfg) + [], cfg)
  {
    var tail := TableText(rows, cfg) + [];
    var view := cfg.next + tail;
    if !(cfg.next <= cfg.sep) {
      UnlikeBehind(cfg.next, cfg.sep, tail);
    } else {
      assert |cfg.next| < |cfg.sep|;
      assert cfg.sep <= view ==> cfg.sep[|cfg.next|] == view[|cfg.next|];
      assert |view| > |cfg.next| ==> view[|cfg.next|] == tail[0];
      if rows != [] {
        QuotedRowBegins(rows[0], cfg);
        assert tail[0] == RowText(rows[0], cfg)[0];
      }
    }
  }

  lemma QuotedRowBegins(row: Fields, cfg: Config)
    requires Usable(cfg) && row != [] && row[0].Quoted?
    ensures RowText(row, cfg) != [] && RowText(row, cfg)[0] == cfg.border[0]
  {
    assert FieldText(row[0], cfg.border)[0] == cfg.border[0];
  }

  /** Comma, quotation mark, carriage return and line feed. */
  const DEFAULT: Config := Config([44], [34], [13, 10])

  lemma DefaultSeparable()
    ensures Separable(DEFAULT) && !(DEFAULT.next <= DEFAULT.sep)
  {
    assert DEFAULT.sep[0] == 44 && DEFAULT.border[0] == 34 && DEFAULT.next[0] == 13;
  }

  lemma DefaultPlain()
    ensures FieldPlain(Bare([97, 13, 98]), DEFAULT)
  {
    var text: Text := [97, 13, 98];
    assert text[0..][0] == 97 && text[1..][0] == 13 && text[1..][1] == 98 && text[2..][0] == 98;
    assert DEFAULT.sep[0] == 44 && DEFAULT.border[0] == 34 && DEFAULT.next[0] == 13 && DEFAULT.next[1] == 10;
    forall k | 0 <= k < |text|
      ensures Unlike(text[k..], DEFAULT.sep) && Unlike(text[k..], DEFAULT.next)
    {
      assert k == 0 || k == 1 || k == 2;
    }
  }

  /** A carriage return alone, inside a bare field, is a byte like any other. */
  lemma LoneReturn()
    ensures Decoded([97, 13, 98, 13, 10], DEFAULT) == [[[97, 13, 98]]]
  {
    var f := Bare([97, 13, 98]);
    var rows := [[f]];
    hide SelfFree, Separable, FieldPlain, Decoded, RowsFit;
    DefaultSeparable();
    DefaultPlain();
    PlainRowsFit(rows, DEFAULT);
    RoundTrip(rows, DEFAULT);
    assert TableText(rows, DEFAULT) == [97, 13, 98, 13, 10];
    assert TextsOf([f]) == [[97, 13, 98]] && TableOf(rows) == [TextsOf([f])];
  }

  // ----- when a table reads back -----

  /** A border whose first byte occurs in no separator. */
  ghost predicate BorderApart(cfg: Config) {
    Usable(cfg) && SelfFree(cfg.border) && cfg.border[0] !in cfg.sep && cfg.border[0] !in cfg.next
  }

  ghost predicate AllQuoted(rows: seq<Fields>) {
    rows != [] && forall k | 0 <= k < |rows| ::
                    rows[k] != [] && forall j | 0 <= j < |rows[k]| :: rows[k][j].Quoted? && rows[k][j].tail == []
  }

  ghost predicate ReadsBack(rows: seq<Fields>, cfg: Config)
    requires Usable(cfg)
  {
    Decoded(TableText(rows, cfg), cfg) == TableOf(rows)
  }

  /** With such a border every fully quoted table reads back, exactly when the cell separator
      is not the beginning of the terminator. */
  lemma QuotedReadsBackIff(cfg: Config)
    requires BorderApart(cfg)
    ensures (forall rows :: AllQuoted(rows) ==> ReadsBack(rows, cfg)) <==> !(cfg.sep <= cfg.next)
  {
    hide SelfFree, Decoded;
    if cfg.sep <= cfg.next {
      var empty := [[Quoted([], [])]];
      assert AllQuoted(empty) && TableOf(empty) != [];
      SeparatorHidesTerminator(cfg);
      assert RowText(empty[0], cfg) == cfg.border + cfg.border;
      assert TableText(empty, cfg) == cfg.border + cfg.border + cfg.next;
    } else {
      forall rows | AllQuoted(rows)
        ensures ReadsBack(rows, cfg)
      {
        PlainRowsFit(rows, cfg);
        RoundTrip(rows, cfg);
      }
    }
  }

  /** Text shorter than the terminator ends no row. */
  lemma {:induction false} ShortEndsNoRow(view: Text, s: Scanner, cfg: Config)
    requires Usable(cfg) && |view| < |cfg.next|
    ensures Scan(view, s, cfg).dest == s.dest
    decreases |view|
  {
    if view != [] {
      var t := TokenAt(view, s, cfg);
      ScanStep(view, s, cfg);
      ShortEndsNoRow(view[Width(t, cfg)..], Absorb(t, view[0], s, cfg), cfg);
    }
  }

  /** A separator that begins the terminator hides every row end: one empty quoted field is
      read as no row at all. */
  lemma SeparatorHidesTerminator(cfg: Config)
    requires Usable(cfg) && cfg.sep <= cfg.next && cfg.sep[0] != cfg.border[0]
    ensures Decoded(cfg.border + cfg.border + cfg.next, cfg) == []
  {
    hide Scan;
    var (b, s) := (cfg.border, Start([]));
    var text := b + b + cfg.next;
    assert text == b + (b + cfg.next) && cfg.next[0] == cfg.sep[0];
    OpeningBorder(b + cfg.next, s, cfg);
    assert cfg.next[0] != b[0];
    ClosingBorder(cfg.next, s.(inCell := true), cfg);
    ScanStep(cfg.next, s, cfg);
    ShortEndsNoRow(cfg.next[|cfg.sep|..], EndCell(s), cfg);
    assert EndsWith(text, cfg.next);
  }
}
