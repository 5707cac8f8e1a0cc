/** Spreadsheet column letters, cell references and areas (helper/ExcelCoordinates.py). */
module ExcelCoordinates {
  import opened Wrappers
  import opened CustomErrors
  import Misc

  predicate IsAsciiLetter(c: char) { 'A' <= c <= 'Z' || 'a' <= c <= 'z' }
  predicate IsUpperLetter(c: char) { 'A' <= c <= 'Z' }

  /** `ord(c.upper()) - ord('A') + 1` for an ASCII letter: A and a are 1, Z and z are 26. */
  function LetterValue(c: char): (v: nat)
    requires IsAsciiLetter(c)
    ensures 1 <= v <= 26
  {
    if 'a' <= c <= 'z' then (c as int) - ('a' as int) + 1 else (c as int) - ('A' as int) + 1
  }

  function LetterOf(d: nat): (c: char)
    requires d < 26
    ensures IsUpperLetter(c) && LetterValue(c) == d + 1
  {
    (('A' as int) + d) as char
  }

  /** Column number of a column name, read as bijective base 26; characters that are not ASCII letters are skipped. */
  function ColumnValue(col: string): nat
  {
    if col == [] then 0
    else if IsAsciiLetter(col[|col| - 1]) then ColumnValue(col[..|col| - 1]) * 26 + LetterValue(col[|col| - 1])
    else ColumnValue(col[..|col| - 1])
  }

  /** `col2num`. */
  method Col2Num(col: string) returns (num: nat)
    ensures num == ColumnValue(col)
  {
    num := 0;
    var i := 0;
    while i < |col|
      invariant 0 <= i <= |col|
      invariant num == ColumnValue(col[..i])
    {
      assert col[..i + 1][..i] == col[..i];
      if IsAsciiLetter(col[i]) {
        num := num * 26 + LetterValue(col[i]);
      }
      i := i + 1;
    }
    assert col[..|col|] == col;
  }

  /** The bijective base-26 name of a positive column number, "" for 0. */
  function ColumnName(n: nat): (s: string)
    ensures forall i :: 0 <= i < |s| ==> IsUpperLetter(s[i])
    ensures n == 0 <==> s == []
    decreases n
  {
    if n == 0 then "" else ColumnName((n - 1) / 26) + [LetterOf((n - 1) % 26)]
  }

  /** Python's `int(a / b)`: the quotient truncated toward zero. */
  function TruncDiv(a: int, b: int): int
    requires b > 0
  {
    if a >= 0 then a / b else -((-a) / b)
  }

  /**
   * `num2col`.  The loop runs while num >= 0, so a negative number gives "" and 0
   * gives "Z" ((0-1) % 26 == 25, and int(-1/26) == 0 ends the loop).
   */
  method Num2Col(num0: int) returns (col: string)
    ensures num0 < 0 ==> col == ""
    ensures num0 == 0 ==> col == "Z"
    ensures num0 > 0 ==> col == ColumnName(num0)
  {
    var num := num0;
    col := "";
    while num >= 0
      invariant num0 < 0 ==> num == num0 && col == ""
      invariant num0 >= 0 ==> num >= 0
      invariant num0 > 0 ==> num >= 1 && ColumnName(num) + col == ColumnName(num0)
      invariant num0 == 0 ==> num == 0 && col == ""
      decreases num + 1
    {
      var numSep := (num - 1) % 26;
      var next := TruncDiv(num - 1, 26);
      if num0 > 0 {
        assert ColumnName(num) == ColumnName(next) + [LetterOf(numSep)];
      }
      num := next;
      col := [LetterOf(numSep)] + col;
      if num == 0 {
        break;
      }
    }
  }

  /** Reading the name of a column number gives the number back. */
  lemma {:induction false} ColumnValueOfName(n: nat)
    ensures ColumnValue(ColumnName(n)) == n
    decreases n
  {
    if n > 0 {
      var s := ColumnName(n);
      assert s[..|s| - 1] == ColumnName((n - 1) / 26);
      ColumnValueOfName((n - 1) / 26);
    }
  }

  /** Every upper-case column name is the name of its column number. */
  lemma {:induction false} ColumnNameOfValue(s: string)
    requires forall i :: 0 <= i < |s| ==> IsUpperLetter(s[i])
    ensures ColumnName(ColumnValue(s)) == s
    decreases |s|
  {
    if s != [] {
      var p := s[..|s| - 1];
      var d := LetterValue(s[|s| - 1]);
      var n := ColumnValue(p) * 26 + d;
      assert (n - 1) / 26 == ColumnValue(p) && (n - 1) % 26 == d - 1;
      ColumnNameOfValue(p);
      assert s == p + [s[|s| - 1]];
    }
  }

  /** Column names ignore case. */
  lemma {:induction false} ColumnValueCaseInsensitive(s: string, t: string)
    requires |s| == |t|
    requires forall i :: 0 <= i < |s| ==> IsAsciiLetter(s[i]) == IsAsciiLetter(t[i])
    requires forall i :: 0 <= i < |s| && IsAsciiLetter(s[i]) ==> LetterValue(s[i]) == LetterValue(t[i])
    ensures ColumnValue(s) == ColumnValue(t)
    decreases |s|
  {
    if s != [] {
      ColumnValueCaseInsensitive(s[..|s| - 1], t[..|t| - 1]);
    }
  }

  datatype ExcelCoordinate = ExcelCoordinate(column: nat, row: nat)
  datatype ExcelArea = ExcelArea(upperLeft: ExcelCoordinate, lowerRight: ExcelCoordinate)

  /** Length of the longest prefix of ASCII letters. */
  function LetterPrefix(s: string): (k: nat)
    ensures k <= |s|
    ensures forall i :: 0 <= i < k ==> IsAsciiLetter(s[i])
    ensures k < |s| ==> !IsAsciiLetter(s[k])
  {
    if s == [] || !IsAsciiLetter(s[0]) then 0 else 1 + LetterPrefix(s[1..])
  }

  /**
   * `ExcelCoordinate.from_string`: the pattern `^([A-Za-z]+)(\d+)$`; as in Python,
   * `$` also matches before one final newline.  Anything else raises ValueError.
   */
  function CoordinateFromString(cell: string): (r: Result<ExcelCoordinate>)
    ensures r.Err? ==> r.error == ValueError
    ensures r.Ok? <==>
      var body := if |cell| > 0 && cell[|cell| - 1] == '\n' then cell[..|cell| - 1] else cell;
      0 < LetterPrefix(body) < |body| &&
      forall i :: LetterPrefix(body) <= i < |body| ==> Misc.IsDigit(body[i])
  {
    var body := if |cell| > 0 && cell[|cell| - 1] == '\n' then cell[..|cell| - 1] else cell;
    var k := LetterPrefix(body);
    if 0 < k < |body| && forall i :: k <= i < |body| ==> Misc.IsDigit(body[i]) then
      Ok(ExcelCoordinate(ColumnValue(body[..k]), Misc.DigitsValue(body[k..])))
    else
      Err(ValueError)
  }

  /** Column name and row number of a coordinate parse back to that coordinate. */
  lemma CoordinateRoundTrip(column: nat, row: nat)
    requires column >= 1
    ensures CoordinateFromString(ColumnName(column) + Misc.Digits(row)) == Ok(ExcelCoordinate(column, row))
  {
    var name, digits := ColumnName(column), Misc.Digits(row);
    var cell := name + digits;
    assert cell[|cell| - 1] == digits[|digits| - 1];
    LetterPrefixOfConcat(name, digits);
    assert cell[..|name|] == name && cell[|name|..] == digits;
    ColumnValueOfName(column);
    Misc.DigitsValueOfDigits(row);
  }

  lemma {:induction false} LetterPrefixOfConcat(letters: string, rest: string)
    requires forall i :: 0 <= i < |letters| ==> IsAsciiLetter(letters[i])
    requires rest != [] && !IsAsciiLetter(rest[0])
    ensures LetterPrefix(letters + rest) == |letters|
    decreases |letters|
  {
    if letters != [] {
      assert (letters + rest)[1..] == letters[1..] + rest;
      LetterPrefixOfConcat(letters[1..], rest);
    } else {
      assert letters + rest == rest;
    }
  }

  /** Python's `s.split(sep)`: the pieces between separators, in order. */
  function Split(s: string, sep: char): (parts: seq<string>)
    ensures |parts| >= 1
    ensures forall i, j :: 0 <= i < |parts| && 0 <= j < |parts[i]| ==> parts[i][j] != sep
    decreases |s|
  {
    if s == [] then [""]
    else
      var rest := Split(s[1..], sep);
      if s[0] == sep then [""] + rest else [[s[0]] + rest[0]] + rest[1..]
  }

  /** Joins pieces with a separator, the inverse of `Split`. */
  function Join(parts: seq<string>, sep: char): string
    requires |parts| >= 1
  {
    if |parts| == 1 then parts[0] else parts[0] + [sep] + Join(parts[1..], sep)
  }

  lemma {:induction false} SplitJoin(s: string, sep: char)
    ensures Join(Split(s, sep), sep) == s
    decreases |s|
  {
    if s != [] {
      SplitJoin(s[1..], sep);
      var rest := Split(s[1..], sep);
      if s[0] != sep {
        var parts := [[s[0]] + rest[0]] + rest[1..];
        if |rest| > 1 {
          assert parts[1..] == rest[1..];
          assert Join(rest, sep) == rest[0] + [sep] + Join(rest[1..], sep);
        }
      } else {
        assert ([""] + rest)[1..] == rest;
      }
    }
  }

  /** `ExcelArea.from_string`: exactly one ':' separating two coordinates, else ValueError. */
  function AreaFromString(area: string): (r: Result<ExcelArea>)
    ensures r.Err? ==> r.error == ValueError
    ensures r.Ok? <==>
      |Split(area, ':')| == 2 &&
      CoordinateFromString(Split(area, ':')[0]).Ok? &&
      CoordinateFromString(Split(area, ':')[1]).Ok?
    ensures r.Ok? ==> Join(Split(area, ':'), ':') == area
  {
    SplitJoin(area, ':');
    var parts := Split(area, ':');
    if |parts| != 2 then Err(ValueError)
    else
      var ul :- CoordinateFromString(parts[0]);
      var lr :- CoordinateFromString(parts[1]);
      Ok(ExcelArea(ul, lr))
  }

  lemma ColumnExamples()
    ensures ColumnValue("A") == 1 && ColumnValue("z") == 26 && ColumnValue("AA") == 27
    ensures ColumnName(28) == "AB"
  {
  }
}
