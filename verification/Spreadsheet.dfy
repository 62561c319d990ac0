/** Columns of a worksheet: letters to numbers, cells to their places in a row, rows to one
    length. */
module Spreadsheet {

  // ----- column letters -----

  /** The value of a letter, 1 to 26 whatever its case; other characters have none. */
  function Digit(c: char): nat {
    if 'A' <= c <= 'Z' then c as nat - 0x40
    else if 'a' <= c <= 'z' then c as nat - 0x60
    else 0
  }

  type Letter = d: nat | 1 <= d <= 26 witness 1

  /** The letters of a cell coordinate, its digits left out. */
  function Letters(s: string): (r: seq<Letter>)
    ensures |r| <= |s|
  {
    if s == "" then []
    else Letters(s[..|s| - 1]) + (if Digit(s[|s| - 1]) == 0 then [] else [Digit(s[|s| - 1])])
  }

  /** The alphabet in its order, in either case, and nothing else. */
  lemma DigitIs(d: Letter, c: char)
    ensures Digit(c) == d <==> c == "ABCDEFGHIJKLMNOPQRSTUVWXYZ"[d - 1] || c == "abcdefghijklmnopqrstuvwxyz"[d - 1]
  {
    var upper := "ABCDEFGHIJKLMNOPQRSTUVWXYZ";
    var lower := "abcdefghijklmnopqrstuvwxyz";
    assert forall k | 0 <= k < 26 :: upper[k] as nat == 0x41 + k && lower[k] as nat == 0x61 + k;
  }

  /** A character that is no letter leaves the column what it is, and a letter counts in either case. */
  lemma {:induction false} LettersOnly(before: string, c: char, d: char, after: string)
    requires Digit(c) == Digit(d)
    ensures Letters(before + [c] + after) == Letters(before + [d] + after)
    ensures Digit(c) == 0 ==> Letters(before + [c] + after) == Letters(before + after)
    decreases |after|
  {
    var (s, t, u) := (before + [c] + after, before + [d] + after, before + after);
    var n := |after| - 1;
    if after == [] {
      assert s[..|before|] == before && t[..|before|] == before && u == before;
    } else {
      LettersOnly(before, c, d, after[..n]);
      assert s[..|s| - 1] == before + [c] + after[..n];
      assert t[..|t| - 1] == before + [d] + after[..n];
      assert u[..|u| - 1] == before + after[..n];
    }
  }

  function Power26(n: nat): nat { if n == 0 then 1 else 26 * Power26(n - 1) }

  /** The number of a column: bijective base 26. */
  function Column(ls: seq<Letter>): nat {
    if ls == [] then 0 else 26 * Column(ls[..|ls| - 1]) + ls[|ls| - 1]
  }

  /** The loop from the last character: so many letters seen, so much still to their left. */
  lemma {:induction false} LettersSuffix(s: string, k: nat)
    requires k < |s|
    ensures Letters(s[k..]) == (if Digit(s[k]) == 0 then [] else [Digit(s[k])]) + Letters(s[k + 1..])
    decreases |s|
  {
    var n := |s| - 1;
    if k < n {
      assert s[k..][..|s[k..]| - 1] == s[..n][k..] && s[k + 1..][..|s[k + 1..]| - 1] == s[..n][k + 1..];
      LettersSuffix(s[..n], k);
    } else {
      assert s[k..] == [s[k]] && s[k + 1..] == "";
      assert [s[k]][..0] == "";
    }
  }

  /** A letter in front of others. */
  lemma {:induction false} ColumnInFront(d: Letter, ls: seq<Letter>)
    ensures Column([d] + ls) == d * Power26(|ls|) + Column(ls)
  {
    if ls == [] {
      assert [d] + ls == [d] && [d][..0] == [];
    } else {
      var n := |ls| - 1;
      assert ([d] + ls)[..n + 1] == [d] + ls[..n];
      ColumnInFront(d, ls[..n]);
      assert Power26(n + 1) == 26 * Power26(n);
      assert 26 * (d * Power26(n)) == d * (26 * Power26(n));
    }
  }

  /** What one character adds to the number of what is to its right. */
  lemma OneMoreLetter(coord: string, idx: nat, base: nat, ret: nat)
    requires idx < |coord|
    requires base == Power26(|Letters(coord[idx + 1..])|) && ret == Column(Letters(coord[idx + 1..]))
    ensures Column(Letters(coord[idx..])) == ret + base * Digit(coord[idx])
    ensures Power26(|Letters(coord[idx..])|) == if Digit(coord[idx]) == 0 then base else base * 26
  {
    LettersSuffix(coord, idx);
    var d := Digit(coord[idx]);
    if d == 0 {
      assert Letters(coord[idx..]) == Letters(coord[idx + 1..]);
      assert base * d == 0;
    } else {
      ColumnInFront(d, Letters(coord[idx + 1..]));
      assert base * d == d * base;
    }
  }

  /** cell_coord_to_uint32, with the bounds within which a 32-bit int does not overflow. */
  method ColumnOf(coord: string) returns (ret: nat)
    ensures ret == Column(Letters(coord))
    ensures |Letters(coord)| <= 6 ==> ret < 0x8000_0000
  {
    hide Column, Letters, Power26;
    ret := 0;
    var base := 1;
    var idx := |coord| - 1;
    NoLetters(coord[idx + 1..]);
    while idx >= 0
      invariant -1 <= idx < |coord|
      invariant ret == Column(Letters(coord[idx + 1..])) && base == Power26(|Letters(coord[idx + 1..])|)
      decreases idx
    {
      OneMoreLetter(coord, idx, base, ret);
      if 'A' <= coord[idx] <= 'Z' {
        ret := ret + base * (coord[idx] as nat - 0x40);
        base := base * 26;
      } else if 'a' <= coord[idx] <= 'z' {
        ret := ret + base * (coord[idx] as nat - 0x60);
        base := base * 26;
      }
      idx := idx - 1;
    }
    assert coord[idx + 1..] == coord;
    if |Letters(coord)| <= 6 {
      ColumnBound(Letters(coord));
    }
  }

  lemma NoLetters(s: string)
    requires s == ""
    ensures Letters(s) == [] && Column([]) == 0 && Power26(0) == 1
  {
  }

  lemma {:induction false} ColumnBound(ls: seq<Letter>)
    requires |ls| <= 6
    ensures 25 * Column(ls) <= 26 * (Power26(|ls|) - 1)
    ensures Power26(|ls|) <= 308915776 && Column(ls) <= 321272406
  {
    if ls != [] {
      ColumnBound(ls[..|ls| - 1]);
    }
    assert Power26(0) == 1 && Power26(1) == 26 && Power26(2) == 676 && Power26(3) == 17576;
    assert Power26(4) == 456976 && Power26(5) == 11881376 && Power26(6) == 308915776;
  }

  /** Shorter first, then letter by letter. */
  predicate Before(a: seq<Letter>, b: seq<Letter>) {
    |a| < |b| || (|a| == |b| && a != [] &&
      (Before(a[..|a| - 1], b[..|b| - 1]) || (a[..|a| - 1] == b[..|b| - 1] && a[|a| - 1] < b[|b| - 1])))
  }

  /** Columns are numbered in exactly that order, and no two have the same number. */
  lemma {:induction false} ColumnOrder(a: seq<Letter>, b: seq<Letter>)
    ensures Before(a, b) <==> Column(a) < Column(b)
    ensures Column(a) == Column(b) <==> a == b
    decreases |a| + |b|
  {
    if a != [] && b != [] {
      var (m, n) := (|a| - 1, |b| - 1);
      ColumnOrder(a[..m], b[..n]);
      assert a == a[..m] + [a[m]] && b == b[..n] + [b[n]];
    }
  }

  /** The letters of a column number. */
  function LettersOf(n: nat): seq<Letter> {
    if n == 0 then [] else LettersOf((n - 1) / 26) + [(n - 1) % 26 + 1]
  }

  /** Every number is the number of exactly one column. */
  lemma {:induction false} ColumnBijective(n: nat, ls: seq<Letter>)
    ensures Column(LettersOf(n)) == n
    ensures LettersOf(Column(ls)) == ls
  {
    ColumnOfLetters(n);
    ColumnOfLetters(Column(ls));
    ColumnOrder(LettersOf(Column(ls)), ls);
  }

  lemma {:induction false} ColumnOfLetters(n: nat)
    ensures Column(LettersOf(n)) == n
  {
    if n > 0 {
      ColumnOfLetters((n - 1) / 26);
      var ls := LettersOf(n);
      assert ls[..|ls| - 1] == LettersOf((n - 1) / 26);
    }
  }

  // ----- cells into rows -----

  /** A cell: its column and its value. */
  datatype Cell = Cell(column: nat, value: string)

  /** Where cell `k` ends up: at its column, or right after the cell before if that is further. */
  function Place(cells: seq<Cell>, k: nat): nat
    requires k < |cells|
  {
    var own := Own(cells, k);
    if k == 0 then own
    else if Place(cells, k - 1) + 1 > own then Place(cells, k - 1) + 1 else own
  }

  /** The index cell `j` asks for, or the first one. */
  function Own(cells: seq<Cell>, j: nat): nat
    requires j < |cells|
  {
    if cells[j].column == 0 then 0 else cells[j].column - 1
  }

  /** A cell is as far right as it, or a cell before it, asks for: that far, and one more for each
      cell in between. */
  lemma {:induction false} PlaceIsFurthest(cells: seq<Cell>, k: nat)
    requires k < |cells|
    ensures forall j | 0 <= j <= k :: Own(cells, j) + (k - j) <= Place(cells, k)
    ensures exists j :: 0 <= j <= k && Own(cells, j) + (k - j) == Place(cells, k)
  {
    if k > 0 {
      PlaceIsFurthest(cells, k - 1);
      assert Own(cells, k) + (k - k) == Own(cells, k);
    } else {
      assert Own(cells, 0) + (0 - 0) == Place(cells, 0);
    }
  }

  ghost predicate Taken(cells: seq<Cell>, n: nat, i: nat)
    requires n <= |cells|
  {
    exists k :: 0 <= k < n && Place(cells, k) == i
  }

  /** The row of the first `n` cells: each at its place, and nothing in between. */
  ghost predicate IsRow(row: seq<string>, cells: seq<Cell>, n: nat)
    requires n <= |cells|
  {
    && |row| == (if n == 0 then 0 else Place(cells, n - 1) + 1)
    && (forall k | 0 <= k < n :: Place(cells, k) < |row| && row[Place(cells, k)] == cells[k].value)
    && (forall i | 0 <= i < |row| :: row[i] == "" || Taken(cells, n, i))
  }

  lemma {:induction false} PlacesIncrease(cells: seq<Cell>, j: nat, k: nat)
    requires j < k < |cells|
    ensures Place(cells, j) < Place(cells, k)
    decreases k
  {
    if j < k - 1 {
      PlacesIncrease(cells, j, k - 1);
    }
  }

  // ----- what a cell says -----

  /** A cell as it stands in the file: its attributes, and its value elements. */
  datatype Element = Element(attributes: seq<Attribute>, values: seq<string>)
  datatype Attribute = Attribute(name: string, value: string)

  /** The strings that cells share, and how the C library reads the number of one. */
  datatype Strings = Strings(shared: seq<string>, number: string -> nat)

  ghost predicate HasType(e: Element, t: string) {
    exists k :: 0 <= k < |e.attributes| && e.attributes[k] == Attribute("t", t)
  }

  /** Shared strings, and any type that is not known. */
  ghost predicate IsString(e: Element) {
    exists k :: 0 <= k < |e.attributes| && e.attributes[k].name == "t" && e.attributes[k].value !in {"n", "b"}
  }

  /** The last coordinate given. */
  function CoordOf(attributes: seq<Attribute>): string {
    if attributes == [] then ""
    else if attributes[|attributes| - 1].name == "r" then attributes[|attributes| - 1].value
    else CoordOf(attributes[..|attributes| - 1])
  }

  ghost function ValueOf(e: Element, v: string, s: Strings): string
    requires IsString(e) ==> s.number(v) < |s.shared|
  {
    if IsString(e) then s.shared[s.number(v)]
    else if HasType(e, "b") && !HasType(e, "n") then (if v == "1" then "true" else "false")
    else v
  }

  /** Attribute `k` is the last of its name. */
  ghost predicate IsLast(attributes: seq<Attribute>, k: nat, name: string) {
    k < |attributes| && attributes[k].name == name && forall j | k < j < |attributes| :: attributes[j].name != name
  }

  /** The coordinate is that of the last attribute "r", or none. */
  lemma {:induction false} CoordIsLast(attributes: seq<Attribute>, k: nat)
    ensures IsLast(attributes, k, "r") ==> CoordOf(attributes) == attributes[k].value
    ensures (forall a | a in attributes :: a.name != "r") ==> CoordOf(attributes) == ""
  {
    if attributes != [] && k < |attributes| - 1 {
      CoordIsLast(attributes[..|attributes| - 1], k);
    } else if attributes != [] {
      CoordIsLast(attributes[..|attributes| - 1], 0);
    }
  }

  /** What a value says, in a cell of one type: a number of a shared string, for "s" and for every
      other type, a truth value that is true for "1" alone, or the text itself. */
  lemma ValueMeans(e: Element, v: string, s: Strings, t: string)
    requires IsString(e) ==> s.number(v) < |s.shared|
    requires HasType(e, t) && forall a | a in e.attributes && a.name == "t" :: a.value == t
    ensures t == "n" ==> ValueOf(e, v, s) == v
    ensures t == "b" && v == "1" ==> ValueOf(e, v, s) == "true"
    ensures t == "b" && v != "1" ==> ValueOf(e, v, s) == "false"
    ensures t != "n" && t != "b" ==> s.number(v) < |s.shared| && ValueOf(e, v, s) == s.shared[s.number(v)]
  {
  }

  /** Without a type, the text itself. */
  lemma UntypedValue(e: Element, v: string, s: Strings)
    requires forall a | a in e.attributes :: a.name != "t"
    ensures !IsString(e) && ValueOf(e, v, s) == v
  {
    forall k | 0 <= k < |e.attributes|
      ensures e.attributes[k].name != "t"
    {
      assert e.attributes[k] in e.attributes;
    }
  }

  /** Every reference to a shared string names one. */
  ghost predicate Resolves(e: Element, s: Strings) {
    IsString(e) ==> forall k | 0 <= k < |e.values| :: s.number(e.values[k]) < |s.shared|
  }

  ghost function CellOf(e: Element, s: Strings): Cell
    requires Resolves(e, s)
  {
    Cell(Column(Letters(CoordOf(e.attributes))),
         if e.values == [] then "" else ValueOf(e, e.values[|e.values| - 1], s))
  }

  ghost predicate AllResolve(es: seq<Element>, s: Strings) {
    forall k | 0 <= k < |es| :: Resolves(es[k], s)
  }

  ghost function CellsOf(es: seq<Element>, s: Strings): seq<Cell>
    requires AllResolve(es, s)
  {
    seq(|es|, k requires 0 <= k < |es| => CellOf(es[k], s))
  }

  /** The attributes of a cell, one after the other. */
  method ReadAttributes(e: Element) returns (coord: string, isString: bool, isNumber: bool, isBoolean: bool)
    ensures coord == CoordOf(e.attributes)
    ensures isString == IsString(e) && isNumber == HasType(e, "n") && isBoolean == HasType(e, "b")
  {
    coord, isString, isNumber, isBoolean := "", false, false, false;
    var k := 0;
    while k < |e.attributes|
      invariant k <= |e.attributes| && coord == CoordOf(e.attributes[..k])
      invariant isString ==
                exists j :: 0 <= j < k && e.attributes[j].name == "t" && e.attributes[j].value !in {"n", "b"}
      invariant isNumber == exists j :: 0 <= j < k && e.attributes[j] == Attribute("t", "n")
      invariant isBoolean == exists j :: 0 <= j < k && e.attributes[j] == Attribute("t", "b")
    {
      var a := e.attributes[k];
      assert e.attributes[..k + 1][..k] == e.attributes[..k];
      if a.name == "r" {
        coord := a.value;
      } else if a.name == "t" {
        if a.value == "s" {
          isString := true;
        } else if a.value == "n" {
          isNumber := true;
        } else if a.value == "b" {
          isBoolean := true;
        } else {
          isString := true;
        }
      }
      k := k + 1;
    }
    assert e.attributes[..k] == e.attributes;
  }

  /** One cell: its column, and its last value, read by its type. */
  method ReadCell(e: Element, s: Strings) returns (cell: Cell)
    requires Resolves(e, s)
    ensures cell == CellOf(e, s)
  {
    hide Column, Letters, CoordOf, IsString, HasType;
    var coord, isString, isNumber, isBoolean := ReadAttributes(e);
    var column := ColumnOf(coord);
    var value := "";
    var k := 0;
    while k < |e.values|
      invariant k <= |e.values| && value == if k == 0 then "" else ValueOf(e, e.values[k - 1], s)
    {
      var v := e.values[k];
      if isString {
        value := s.shared[s.number(v)];
      } else if isNumber {
        value := v;
      } else if isBoolean {
        value := if v == "1" then "true" else "false";
      } else {
        value := v;
      }
      k := k + 1;
    }
    cell := Cell(column, value);
  }

  /** The cells of one row, with empty ones put in up to each cell's column. */
  method ReadRow(elements: seq<Element>, s: Strings) returns (row: seq<string>)
    requires AllResolve(elements, s)
    ensures IsRow(row, CellsOf(elements, s), |elements|)
  {
    hide CellOf, Resolves;
    ghost var cells := CellsOf(elements, s);
    row := [];
    var col := 1;
    var n := 0;
    while n < |elements|
      invariant n <= |elements| && col == |row| + 1 && IsRow(row, cells, n)
    {
      ghost var before := row;
      var cell := ReadCell(elements[n], s);
      while cell.column - col > 0
        invariant col == |row| + 1 && |before| <= |row| && row[..|before|] == before
        invariant |row| == |before| || |row| < cell.column
        invariant forall i | |before| <= i < |row| :: row[i] == ""
      {
        row := row + [""];
        col := col + 1;
      }
      assert |row| == Place(cells, n);
      ghost var padded := row;
      row := row + [cell.value];
      col := col + 1;
      OneMoreCell(before, padded, row, cells, n);
      n := n + 1;
    }
  }

  lemma OneMoreCell(before: seq<string>, padded: seq<string>, row: seq<string>, cells: seq<Cell>, n: nat)
    requires n < |cells| && IsRow(before, cells, n)
    requires |before| <= |padded| == Place(cells, n) && padded[..|before|] == before
    requires forall i | |before| <= i < |padded| :: padded[i] == ""
    requires row == padded + [cells[n].value]
    ensures IsRow(row, cells, n + 1)
  {
    forall k | 0 <= k < n + 1
      ensures Place(cells, k) < |row| && row[Place(cells, k)] == cells[k].value
    {
      if k < n {
        PlacesIncrease(cells, k, n);
        assert padded[..|before|][Place(cells, k)] == before[Place(cells, k)];
      }
    }
    forall i | 0 <= i < |row|
      ensures row[i] == "" || Taken(cells, n + 1, i)
    {
      if i < |before| {
        assert row[i] == padded[i] == padded[..|before|][i] == before[i];
        if before[i] != "" {
          assert Taken(cells, n, i);
        }
      } else if i < |padded| {
        assert row[i] == padded[i];
      } else {
        assert Place(cells, n) == i;
      }
    }
  }

  function ColumnBefore(cells: seq<Cell>, k: nat): nat
    requires k < |cells|
  {
    if k == 0 then 0 else cells[k - 1].column
  }

  /** The columns of a row, each after the one before and the first at least 1. */
  ghost predicate Increasing(cells: seq<Cell>) {
    forall k | 0 <= k < |cells| :: ColumnBefore(cells, k) < cells[k].column
  }

  ghost predicate AtColumn(cells: seq<Cell>, k: nat)
    requires k < |cells|
  {
    Place(cells, k) + 1 == cells[k].column
  }

  /** Every cell is at index column - 1 exactly when the columns increase from at least 1. */
  lemma {:induction false} PlacesAreColumnsIff(cells: seq<Cell>)
    ensures (forall k | 0 <= k < |cells| :: AtColumn(cells, k)) <==> Increasing(cells)
  {
    if Increasing(cells) {
      PlacesAreColumns(cells, |cells|);
    }
    if forall k | 0 <= k < |cells| :: AtColumn(cells, k) {
      forall k | 0 <= k < |cells|
        ensures ColumnBefore(cells, k) < cells[k].column
      {
        assert AtColumn(cells, k);
        if k > 0 {
          assert AtColumn(cells, k - 1);
          PlacesIncrease(cells, k - 1, k);
        }
      }
    }
  }

  lemma {:induction false} PlacesAreColumns(cells: seq<Cell>, n: nat)
    requires n <= |cells|
    requires Increasing(cells)
    ensures forall k | 0 <= k < n :: AtColumn(cells, k)
  {
    if n > 0 {
      PlacesAreColumns(cells, n - 1);
      assert ColumnBefore(cells, n - 1) < cells[n - 1].column;
      assert n > 1 ==> AtColumn(cells, n - 2);
    }
  }

  // ----- rows to one length -----

  ghost predicate IsPadded(row: seq<string>, original: seq<string>, length: nat) {
    |original| <= |row| == length && row[..|original|] == original && forall i | |original| <= i < length ::
        row[i] == ""
  }

  /** The last loops of read: every row grows to the length of the longest one. */
  method Square(rows: seq<seq<string>>) returns (squared: seq<seq<string>>, length: nat)
    ensures |squared| == |rows|
    ensures forall k | 0 <= k < |rows| :: IsPadded(squared[k], rows[k], length)
    ensures rows != [] ==> exists k :: 0 <= k < |rows| && |rows[k]| == length
  {
    length := 0;
    var k := 0;
    while k < |rows|
      invariant k <= |rows|
      invariant forall m | 0 <= m < k :: |rows[m]| <= length
      invariant if k == 0 then length == 0 else exists m :: 0 <= m < k && |rows[m]| == length
    {
      if length < |rows[k]| {
        length := |rows[k]|;
      }
      k := k + 1;
    }
    squared := rows;
    k := 0;
    while k < |rows|
      invariant k <= |rows| && |squared| == |rows|
      invariant forall m | 0 <= m < k :: IsPadded(squared[m], rows[m], length)
      invariant forall m | k <= m < |rows| :: squared[m] == rows[m]
    {
      var r := squared[k];
      while |r| < length
        invariant |rows[k]| <= |r| <= length && r[..|rows[k]|] == rows[k]
        invariant forall i | |rows[k]| <= i < |r| :: r[i] == ""
      {
        r := r + [""];
      }
      squared := squared[k := r];
      k := k + 1;
    }
  }
}
