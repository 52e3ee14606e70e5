/**
 * A1 notation (`Sheet.fromA1`, `Sheet.toA1`): "B3" is row 2, column 1;
 * "B3:D7" is the range of rows 2..6 and columns 1..3, with inclusive counts.
 *
 * Both operations first make sure the column tables reach far enough, so they
 * are methods on the tables; each is proved against a pair of functions of the
 * table length: how far the tables are extended, and what is returned.
 */
module A1 {
  import opened Wrappers
  import opened Columns
  import opened Decimal
  import opened AlphaTables
  import opened Addresses

  // ----- The address pattern ^([A-Za-z]{1,3})([1-9]\d*)(?::([A-Za-z]{1,3})([1-9]\d*))?$ -----

  /** One corner as written: its letters and its row numeral. */
  datatype CellText = CellText(letters: string, digits: string)

  /** The four capture groups of the pattern. */
  datatype A1Groups = A1Groups(first: CellText, second: Option<CellText>)

  /** "Invalid A1 address: ..." (thrown), or a column whose letters the tables do not hold. */
  datatype A1Error = InvalidA1Address(text: string) | ColumnUndefined(text: string)

  predicate AllLetters(s: string) { forall k :: 0 <= k < |s| ==> IsLetter(s[k]) }

  /** `[A-Za-z]{1,3}[1-9]\d*` */
  predicate WellFormedCell(c: CellText)
  {
    1 <= |c.letters| <= 3 && AllLetters(c.letters) && IsNumeral(c.digits)
  }

  predicate WellFormedGroups(g: A1Groups)
  {
    WellFormedCell(g.first) && (g.second.Some? ==> WellFormedCell(g.second.value))
  }

  function CellString(c: CellText): string { c.letters + c.digits }

  /** The text the groups were captured from. */
  function GroupsString(g: A1Groups): string
  {
    match g.second
    case None => CellString(g.first)
    case Some(y) => CellString(g.first) + [':'] + CellString(y)
  }

  /** Length of the run of letters at the start of s. */
  function LetterRun(s: string): (n: nat)
    ensures n <= |s| && AllLetters(s[..n])
    ensures n < |s| ==> !IsLetter(s[n])
  {
    if s == [] || !IsLetter(s[0]) then 0
    else
      var n := 1 + LetterRun(s[1..]);
      assert s[..n] == [s[0]] + s[1..][..n - 1];
      n
  }

  /** Length of the run of decimal digits at the start of s. */
  function DigitRun(s: string): (n: nat)
    ensures n <= |s| && AllDigits(s[..n])
    ensures n < |s| ==> !IsDigit(s[n])
  {
    if s == [] || !IsDigit(s[0]) then 0
    else
      var n := 1 + DigitRun(s[1..]);
      assert s[..n] == [s[0]] + s[1..][..n - 1];
      n
  }

  /**
   * One corner at the start of s and what follows it. The letter group takes
   * the whole run of letters and the number the whole run of digits: a
   * shorter choice would leave a letter before the digit or a digit before
   * the end or the colon, which the pattern does not allow.
   */
  function MatchCell(s: string): (r: Option<(CellText, string)>)
    ensures r.Some? ==> WellFormedCell(r.value.0) && s == CellString(r.value.0) + r.value.1
    ensures r.Some? ==> r.value.1 == [] || !IsDigit(r.value.1[0])
  {
    var l := LetterRun(s);
    if 1 <= l <= 3 then
      var rest := s[l..];
      var d := DigitRun(rest);
      if d >= 1 && rest[0] != '0' then
        assert s == s[..l] + rest[..d] + rest[d..];
        Some((CellText(s[..l], rest[..d]), rest[d..]))
      else None
    else None
  }

  /** `address.match(re)`: the capture groups, or None when the pattern does not match. */
  function MatchA1(s: string): (r: Option<A1Groups>)
    ensures r.Some? ==> WellFormedGroups(r.value) && GroupsString(r.value) == s
  {
    match MatchCell(s)
    case None => None
    case Some((x, rest)) =>
      if rest == [] then Some(A1Groups(x, None))
      else if rest[0] != ':' then None
      else
        match MatchCell(rest[1..])
        case None => None
        case Some((y, rest2)) =>
          if rest2 == [] then
            JoinCorners(s, x, rest, y);
            Some(A1Groups(x, Some(y)))
          else None
  }

  /** A corner, then a colon and a second corner that end the text: the text of the two corners. */
  lemma JoinCorners(s: string, x: CellText, rest: string, y: CellText)
    requires s == CellString(x) + rest && rest != [] && rest[0] == ':'
    requires rest[1..] == CellString(y) + []
    ensures s == CellString(x) + [':'] + CellString(y)
  {
    assert rest == [rest[0]] + rest[1..];
  }

  lemma {:induction false} LetterRunOf(a: string, b: string)
    requires AllLetters(a) && (b == [] || !IsLetter(b[0]))
    ensures LetterRun(a + b) == |a|
  {
    if a != [] {
      assert (a + b)[1..] == a[1..] + b;
      LetterRunOf(a[1..], b);
    }
  }

  lemma {:induction false} DigitRunOf(a: string, b: string)
    requires AllDigits(a) && (b == [] || !IsDigit(b[0]))
    ensures DigitRun(a + b) == |a|
  {
    if a != [] {
      assert (a + b)[1..] == a[1..] + b;
      DigitRunOf(a[1..], b);
    }
  }

  lemma MatchCellOf(c: CellText, rest: string)
    requires WellFormedCell(c) && (rest == [] || rest[0] == ':')
    ensures MatchCell(CellString(c) + rest) == Some((c, rest))
  {
    var s := CellString(c) + rest;
    assert s == c.letters + (c.digits + rest);
    LetterRunOf(c.letters, c.digits + rest);
    assert s[|c.letters|..] == c.digits + rest;
    DigitRunOf(c.digits, rest);
  }

  /** Every well-formed address text matches, with these very groups. */
  lemma MatchComplete(g: A1Groups)
    requires WellFormedGroups(g)
    ensures MatchA1(GroupsString(g)) == Some(g)
  {
    match g.second
    case None =>
      MatchCellOf(g.first, []);
      assert CellString(g.first) + [] == GroupsString(g);
    case Some(y) =>
      var rest := [':'] + CellString(y);
      MatchCellOf(g.first, rest);
      assert CellString(g.first) + rest == GroupsString(g);
      assert rest[1..] == CellString(y) + [];
      MatchCellOf(y, []);
  }

  // ----- fromA1 -----

  /** The corners once ordered low to high, with the row numbers parsed. */
  datatype Corners = Corners(alphaX: string, numberX: nat, second: Option<(string, nat)>)

  /**
   * Whether the column letters are swapped. The source's guard is
   * `alphaY.lengh < alphaX.length || (same length && alphaY < alphaX)`;
   * `lengh` is no property of a string, `undefined < n` is false, so as
   * written only the second half acts: `byLength` is false for the source
   * and true for the evidently intended guard.
   */
  predicate SwapColumns(alphaX: string, alphaY: string, byLength: bool)
  {
    (byLength && |alphaY| < |alphaX|) || (|alphaY| == |alphaX| && LexLess(alphaY, alphaX))
  }

  /**
   * The corners ordered low to high: the row numbers are the two numerals,
   * smaller first, and the letter groups are the two written ones, swapped
   * exactly when the guard says so. A single cell is taken as written.
   */
  function Orient(g: A1Groups, byLength: bool): (c: Corners)
    requires WellFormedGroups(g)
    ensures c.numberX >= 1
    ensures c.second.Some? ==> c.numberX <= c.second.value.1
    ensures (c.second.Some?) == (g.second.Some?)
    ensures g.second.None? ==> c.alphaX == g.first.letters && c.numberX == NumeralValue(g.first.digits)
    ensures g.second.Some? ==>
              multiset{c.numberX, c.second.value.1}
              == multiset{NumeralValue(g.first.digits), NumeralValue(g.second.value.digits)}
    ensures g.second.Some? ==>
              multiset{c.alphaX, c.second.value.0} == multiset{g.first.letters, g.second.value.letters}
    ensures g.second.Some? && !SwapColumns(g.first.letters, g.second.value.letters, byLength) ==>
              c.alphaX == g.first.letters && c.second.value.0 == g.second.value.letters
    ensures g.second.Some? && SwapColumns(g.first.letters, g.second.value.letters, byLength) ==>
              c.alphaX == g.second.value.letters && c.second.value.0 == g.first.letters
  {
    NumeralPositive(g.first.digits);
    var alphaX, numberX := g.first.letters, NumeralValue(g.first.digits);
    match g.second
    case None => Corners(alphaX, numberX, None)
    case Some(y) =>
      NumeralPositive(y.digits);
      var alphaY, numberY := y.letters, NumeralValue(y.digits);
      var swap := SwapColumns(alphaX, alphaY, byLength);
      var ax, ay := if swap then alphaY else alphaX, if swap then alphaX else alphaY;
      var nx, ny := if numberY < numberX then numberY else numberX, if numberY < numberX then numberX else numberY;
      Corners(ax, nx, Some((ay, ny)))
  }

  /** Table length after `switch ((alphaY ?? alphaX).length)`: alpha2 for 2 letters, alpha3 for 3. */
  function PreparedFor(n: nat, c: Corners): nat
  {
    var len := if c.second.Some? then |c.second.value.0| else |c.alphaX|;
    if len == 2 then Alpha2Length(n) else if len == 3 then ALPHA3_COUNT else n
  }

  /** Table length after fromA1(s) on tables of length n. */
  function FromA1PreparedWith(n: nat, s: string, byLength: bool): nat
  {
    match MatchA1(s)
    case None => n
    case Some(g) => PreparedFor(n, Orient(g, byLength))
  }

  /** What fromA1 returns for the ordered corners c once the tables have length n. */
  function CornersResult(n: nat, s: string, c: Corners): (r: Result<Address, A1Error>)
    requires c.numberX >= 1 && (c.second.Some? ==> c.numberX <= c.second.value.1)
    ensures r.Ok? ==> r.value.rowIndex >= 0 && r.value.columnIndex >= 0
    ensures r.Ok? ==> (r.value.rowCount.Some? <==> c.second.Some?)
    ensures r.Ok? ==> (r.value.rowCount.Some? <==> r.value.columnCount.Some?)
    ensures r.Ok? && r.value.rowCount.Some? ==> r.value.rowCount.value >= 1
    ensures r.Err? ==> r.error == ColumnUndefined(s)
    ensures r.Ok? <==> IndexAt(n, c.alphaX).Some? && (c.second.Some? ==> IndexAt(n, c.second.value.0).Some?)
    ensures r.Ok? ==> r.value.rowIndex == c.numberX - 1 && r.value.columnIndex == IndexAt(n, c.alphaX).value
    ensures r.Ok? && c.second.Some? ==>
              && r.value.rowCount == Some(c.second.value.1 - c.numberX + 1)
              && r.value.columnCount == Some(IndexAt(n, c.second.value.0).value - r.value.columnIndex + 1)
  {
    var rowIndex := c.numberX - 1;
    match IndexAt(n, c.alphaX)
    case None => Err(ColumnUndefined(s))
    case Some(columnIndex) =>
      match c.second
      case None => Ok(Address(rowIndex, columnIndex, None, None))
      case Some((alphaY, numberY)) =>
        match IndexAt(n, alphaY)
        case None => Err(ColumnUndefined(s))
        case Some(last) =>
          Ok(Address(rowIndex, columnIndex, Some(numberY - rowIndex), Some(last - columnIndex + 1)))
  }

  /**
   * What fromA1(s) returns once the tables have length n. Where the source
   * would return a record whose columnIndex is undefined (letters the tables
   * do not hold, lower-case letters among them), the result is ColumnUndefined.
   */
  function FromA1ResultWith(n: nat, s: string, byLength: bool): (r: Result<Address, A1Error>)
    ensures MatchA1(s).None? <==> r == Err(InvalidA1Address(s))
    ensures r.Ok? ==> r.value.rowIndex >= 0 && r.value.columnIndex >= 0
    ensures r.Ok? ==> (r.value.rowCount.Some? <==> MatchA1(s).value.second.Some?)
    ensures r.Ok? ==> (r.value.rowCount.Some? <==> r.value.columnCount.Some?)
    ensures r.Ok? && r.value.rowCount.Some? ==> r.value.rowCount.value >= 1
  {
    match MatchA1(s)
    case None => Err(InvalidA1Address(s))
    case Some(g) => CornersResult(n, s, Orient(g, byLength))
  }

  /** fromA1 as written. */
  function FromA1Prepared(n: nat, s: string): nat { FromA1PreparedWith(n, s, false) }

  function FromA1Result(n: nat, s: string): Result<Address, A1Error> { FromA1ResultWith(n, s, false) }

  /** The range text with its two row numerals exchanged: "A5:B1" for "A1:B5". */
  function RowsExchanged(g: A1Groups): A1Groups
    requires g.second.Some?
  {
    A1Groups(CellText(g.first.letters, g.second.value.digits), Some(CellText(g.second.value.letters, g.first.digits)))
  }

  /**
   * Under either guard, a range reads the same whichever corner carries the
   * smaller row number: "A5:B1" prepares the same tables as "A1:B5" and
   * reads as the same record, or both fail to find a column.
   */
  lemma RowOrderIrrelevant(n: nat, g: A1Groups, byLength: bool)
    requires WellFormedGroups(g) && g.second.Some?
    ensures var t, u := GroupsString(g), GroupsString(RowsExchanged(g));
            && FromA1PreparedWith(n, u, byLength) == FromA1PreparedWith(n, t, byLength)
            && FromA1ResultWith(n, u, byLength).Ok? == FromA1ResultWith(n, t, byLength).Ok?
            && (FromA1ResultWith(n, t, byLength).Ok? ==> FromA1ResultWith(n, u, byLength) == FromA1ResultWith(n, t, byLength))
  {
    var h := RowsExchanged(g);
    var t, u := GroupsString(g), GroupsString(h);
    OrientRowsExchanged(g, byLength);
    MatchComplete(g);
    MatchComplete(h);
    var c := Orient(g, byLength);
    assert FromA1PreparedWith(n, t, byLength) == PreparedFor(n, c);
    assert FromA1PreparedWith(n, u, byLength) == PreparedFor(n, c);
    assert FromA1ResultWith(n, t, byLength) == CornersResult(n, t, c);
    assert FromA1ResultWith(n, u, byLength) == CornersResult(n, u, c);
    CornersResultText(n, t, u, c);
  }

  /** Exchanging the row numerals leaves the ordered corners as they were. */
  lemma OrientRowsExchanged(g: A1Groups, byLength: bool)
    requires WellFormedGroups(g) && g.second.Some?
    ensures WellFormedGroups(RowsExchanged(g))
    ensures Orient(RowsExchanged(g), byLength) == Orient(g, byLength)
  {
    var h := RowsExchanged(g);
    assert h.first.letters == g.first.letters && h.second.value.letters == g.second.value.letters;
    assert h.first.digits == g.second.value.digits && h.second.value.digits == g.first.digits;
  }

  /** The text only names the address in the error: a successful lookup does not depend on it. */
  lemma CornersResultText(n: nat, t: string, u: string, c: Corners)
    requires c.numberX >= 1 && (c.second.Some? ==> c.numberX <= c.second.value.1)
    ensures CornersResult(n, u, c).Ok? == CornersResult(n, t, c).Ok?
    ensures CornersResult(n, t, c).Ok? ==> CornersResult(n, u, c) == CornersResult(n, t, c)
  {
  }

  /** `Sheet.fromA1(address)` */
  method FromA1(tables: ColumnTables, address: string) returns (r: Result<Address, A1Error>)
    requires tables.Valid()
    modifies tables
    ensures tables.Valid()
    ensures |tables.indexToAlpha| == FromA1Prepared(old(|tables.indexToAlpha|), address)
    ensures r == FromA1Result(|tables.indexToAlpha|, address)
  {
    var m := MatchA1(address);
    if m.None? {
      return Err(InvalidA1Address(address));
    }
    var alphaX := m.value.first.letters;
    var numberX := NumeralValue(m.value.first.digits);
    var alphaY: Option<string> := None;
    var numberY := 0;
    if m.value.second.Some? {
      alphaY := Some(m.value.second.value.letters);
      numberY := NumeralValue(m.value.second.value.digits);
      // The corners, smaller column and smaller row first.
      if SwapColumns(alphaX, alphaY.value, false) {
        alphaX, alphaY := alphaY.value, Some(alphaX);
      }
      if numberY < numberX {
        numberX, numberY := numberY, numberX;
      }
    }
    var corners := Corners(alphaX, numberX, if alphaY.Some? then Some((alphaY.value, numberY)) else None);
    assert corners == Orient(m.value, false);
    // Extend the tables as far as the letters need.
    var len := |alphaY.GetOr(alphaX)|;
    if len == 2 {
      tables.Alpha2();
    } else if len == 3 {
      tables.Alpha3();
    }
    r := LookupCorners(tables, address, corners);
  }

  /** The lookups that end fromA1: the column of each corner, the counts. */
  method LookupCorners(tables: ColumnTables, address: string, c: Corners) returns (r: Result<Address, A1Error>)
    requires tables.Valid()
    requires c.numberX >= 1 && (c.second.Some? ==> c.numberX <= c.second.value.1)
    ensures r == CornersResult(|tables.indexToAlpha|, address, c)
  {
    ghost var n := |tables.indexToAlpha|;
    var columnIndex := tables.GetIndex(c.alphaX);
    var rowIndex: int := c.numberX - 1;
    if columnIndex.None? {
      return Err(ColumnUndefined(address));
    }
    if c.second.None? {
      CornersOfLookups(n, address, c, columnIndex.value, None);
      return Ok(Address(rowIndex, columnIndex.value, None, None));
    }
    var (alphaY, numberY) := c.second.value;
    var last := tables.GetIndex(alphaY);
    CornersOfLookups(n, address, c, columnIndex.value, last);
    if last.None? {
      return Err(ColumnUndefined(address));
    }
    var rowCount: int := numberY - rowIndex;
    var columnCount: int := last.value as int - columnIndex.value + 1;
    r := Ok(Address(rowIndex, columnIndex.value, Some(rowCount), Some(columnCount)));
  }

  /** The outcome of fromA1's lookups, given what the tables hold for each corner's letters. */
  lemma CornersOfLookups(n: nat, s: string, c: Corners, first: nat, second: Option<nat>)
    requires c.numberX >= 1 && (c.second.Some? ==> c.numberX <= c.second.value.1)
    requires IndexAt(n, c.alphaX) == Some(first)
    requires c.second.Some? ==> second == IndexAt(n, c.second.value.0)
    ensures c.second.None? ==> CornersResult(n, s, c) == Ok(Address(c.numberX - 1, first, None, None))
    ensures c.second.Some? && second.None? ==> CornersResult(n, s, c) == Err(ColumnUndefined(s))
    ensures c.second.Some? && second.Some? ==>
              CornersResult(n, s, c) == Ok(Address(c.numberX - 1, first, Some(c.second.value.1 - (c.numberX - 1)),
                                                   Some(second.value - first + 1)))
  {
  }

  // ----- toA1 -----

  /**
   * Table length after toA1(a) on tables of length n. The source prepares
   * for `columnIndex + (columnCount ?? 0)` and extends only when that is
   * greater than 26 (alpha2) or greater than 702 (alpha2, then alpha3).
   * `offset` is what stands for an absent count: 0 as written.
   */
  function ToA1PreparedWith(n: nat, a: Address, offset: int): nat
  {
    if !ValidAddress(a) then n
    else
      var maxColumnIndex := a.columnIndex + a.columnCount.GetOr(offset);
      if maxColumnIndex > ALPHA1_COUNT then
        if maxColumnIndex > ALPHA2_COUNT then ALPHA3_COUNT else Alpha2Length(n)
      else n
  }

  function ToA1Prepared(n: nat, a: Address): nat { ToA1PreparedWith(n, a, 0) }

  /**
   * What toA1(a) returns once the tables have length n: "B3" when there is
   * no row count (or it is 0), "B3:D7" otherwise, the last column being
   * `columnIndex + columnCount - 1` and the last row number
   * `rowIndex + rowCount`. A column the tables do not hold prints as
   * "undefined".
   */
  function ToA1Text(n: nat, a: Address): (r: Result<string, AddressError>)
    ensures r.Err? <==> !ValidAddress(a)
    ensures r.Err? ==> r.error == InvalidAddress(a)
  {
    if !ValidAddress(a) then Err(InvalidAddress(a))
    else
      var alphaX := NameAt(n, a.columnIndex);
      var numberX := a.rowIndex + 1;
      if a.rowCount.GetOr(0) == 0 then Ok(alphaX + Numeral(numberX))
      else
        var alphaY := NameAt(n, a.columnIndex + a.columnCount.GetOr(0) - 1);
        var numberY := a.rowIndex + a.rowCount.value;
        Ok(alphaX + Numeral(numberX) + [':'] + alphaY + Numeral(numberY))
  }

  /** `Sheet.toA1(address)` */
  method ToA1(tables: ColumnTables, address: Address) returns (r: Result<string, AddressError>)
    requires tables.Valid()
    modifies tables
    ensures tables.Valid()
    ensures |tables.indexToAlpha| == ToA1Prepared(old(|tables.indexToAlpha|), address)
    ensures r == ToA1Text(|tables.indexToAlpha|, address)
  {
    var valid := ValidateAddress(address);
    if valid.Err? {
      return Err(valid.error);
    }
    // Extend the tables as far as the last column needs.
    var maxColumnIndex := address.columnIndex + address.columnCount.GetOr(0);
    if maxColumnIndex > ALPHA1_COUNT {
      tables.Alpha2();
      if maxColumnIndex > ALPHA2_COUNT {
        tables.Alpha3();
      }
    }
    r := FormatA1(tables, address);
  }

  /** The text toA1 builds from a validated address and prepared tables. */
  method FormatA1(tables: ColumnTables, address: Address) returns (r: Result<string, AddressError>)
    requires tables.Valid() && ValidAddress(address)
    ensures r == ToA1Text(|tables.indexToAlpha|, address)
  {
    ghost var n := |tables.indexToAlpha|;
    var alphaX := tables.GetAlpha(address.columnIndex);
    var numberX := address.rowIndex + 1;
    if address.rowCount.GetOr(0) == 0 {
      r := Ok(alphaX + Numeral(numberX));
      CellFormat(n, address);
      assert r == ToA1Text(n, address);
      return;
    }
    var alphaY := tables.GetAlpha(address.columnIndex + address.columnCount.GetOr(0) - 1);
    var numberY := address.rowIndex + address.rowCount.value;
    r := Ok(alphaX + Numeral(numberX) + [':'] + alphaY + Numeral(numberY));
    RangeFormat(n, address);
    assert r == ToA1Text(n, address);
  }

  /** The text toA1 builds for a single cell, or for a record whose row count is 0. */
  lemma CellFormat(n: nat, a: Address)
    requires ValidAddress(a) && a.rowCount.GetOr(0) == 0
    ensures ToA1Text(n, a) == Ok(NameAt(n, a.columnIndex) + Numeral(a.rowIndex + 1))
  {
  }

  // ----- Round trips -----

  /** Column i is found under its own name once the tables reach past it. */
  lemma IndexAtName(n: nat, i: nat)
    requires i < n
    ensures IndexAt(n, ColumnName(i)) == Some(i)
  {
    NameToIndex(i);
    var r := IndexAt(n, ColumnName(i));
    assert r.Some?;
    NameInjective(r.value, i);
  }

  /** The corner toA1 writes for a column within ZZZ and a positive row number. */
  function CornerText(column: nat, number: nat): CellText
  {
    CellText(ColumnName(column), Numeral(number))
  }

  lemma CornerWellFormed(column: nat, number: nat)
    requires column < ALPHA3_COUNT && number >= 1
    ensures WellFormedCell(CornerText(column, number))
    ensures NumeralValue(CornerText(column, number).digits) == number
  {
    NameLength(column);
    NumeralWellFormed(number);
    NumeralRoundTrip(number);
  }

  /** The range toA1 writes is matched back as its two corners, and ordering leaves them as they are. */
  lemma RangeCorners(c: nat, last: nat, x: nat, y: nat)
    requires c <= last < ALPHA3_COUNT && 1 <= x <= y
    ensures var g := A1Groups(CornerText(c, x), Some(CornerText(last, y)));
            WellFormedGroups(g) && MatchA1(GroupsString(g)) == Some(g)
            && Orient(g, false) == Corners(ColumnName(c), x, Some((ColumnName(last), y)))
  {
    CornerWellFormed(c, x);
    CornerWellFormed(last, y);
    var g := A1Groups(CornerText(c, x), Some(CornerText(last, y)));
    MatchComplete(g);
    NameLengthMonotone(c, last);
    if |ColumnName(c)| == |ColumnName(last)| {
      NameNotBelow(c, last);
    }
  }

  /** Preparing for the last corner's name makes the tables reach past its column. */
  lemma PreparedCovers(n: nat, corners: Corners, last: nat)
    requires TableLength(n) && last < ALPHA3_COUNT
    requires (if corners.second.Some? then corners.second.value.0 else corners.alphaX) == ColumnName(last)
    requires last >= ALPHA1_COUNT ==> n > last || |ColumnName(last)| >= 2
    ensures PreparedFor(n, corners) >= n
    ensures last < n ==> last < PreparedFor(n, corners)
    ensures last >= ALPHA1_COUNT ==> last < PreparedFor(n, corners)
  {
    NameLength(last);
  }

  /**
   * toA1's preparation for a range reaches past its last column: the tables
   * it leaves hold both corners.
   */
  lemma RangePrepared(n0: nat, a: Address)
    requires TableLength(n0) && ValidAddress(a)
    requires a.columnCount.Some? && a.columnCount.value >= 1
    requires a.columnIndex + a.columnCount.value <= ALPHA3_COUNT
    ensures TableLength(ToA1Prepared(n0, a))
    ensures a.columnIndex + a.columnCount.value - 1 < ToA1Prepared(n0, a)
  {
  }

  /** The range text toA1 writes, as the groups of the pattern. */
  function RangeGroups(a: Address): A1Groups
    requires ValidAddress(a) && a.rowCount.Some? && a.columnCount.Some?
    requires a.columnIndex + a.columnCount.value >= 1
  {
    A1Groups(CornerText(a.columnIndex, a.rowIndex + 1),
             Some(CornerText(a.columnIndex + a.columnCount.value - 1, a.rowIndex + a.rowCount.value)))
  }

  lemma RangeText(n: nat, a: Address)
    requires ValidAddress(a) && a.rowCount.Some? && a.rowCount.value >= 1
    requires a.columnCount.Some? && a.columnCount.value >= 1
    requires a.columnIndex + a.columnCount.value - 1 < n
    ensures ToA1Text(n, a) == Ok(GroupsString(RangeGroups(a)))
  {
    var c: nat, last: nat := a.columnIndex, a.columnIndex + a.columnCount.value - 1;
    var x, dx := ColumnName(c), Numeral(a.rowIndex + 1);
    var y, dy := ColumnName(last), Numeral(a.rowIndex + a.rowCount.value);
    var h := A1Groups(CellText(x, dx), Some(CellText(y, dy)));
    assert RangeGroups(a) == h;
    RangeFormatOf(n, a, c, last);
  }

  /** The text toA1 builds for a range with a positive row count. */
  lemma RangeFormat(n: nat, a: Address)
    requires ValidAddress(a) && a.rowCount.GetOr(0) != 0
    ensures ToA1Text(n, a) == Ok(NameAt(n, a.columnIndex) + Numeral(a.rowIndex + 1) + [':']
                                 + NameAt(n, a.columnIndex + a.columnCount.GetOr(0) - 1) + Numeral(a.rowIndex + a.rowCount.value))
  {
    var alphaX, numberX := NameAt(n, a.columnIndex), a.rowIndex + 1;
    var alphaY, numberY := NameAt(n, a.columnIndex + a.columnCount.GetOr(0) - 1), a.rowIndex + a.rowCount.value;
    assert ToA1Text(n, a) == Ok(alphaX + Numeral(numberX) + [':'] + alphaY + Numeral(numberY));
  }

  /** The range's text once both corner columns are held by the tables. */
  lemma RangeFormatOf(n: nat, a: Address, c: nat, last: nat)
    requires ValidAddress(a) && a.rowCount.GetOr(0) != 0
    requires c == a.columnIndex && last == a.columnIndex + a.columnCount.GetOr(0) - 1
    requires c < n && last < n
    ensures ToA1Text(n, a) == Ok(GroupsString(A1Groups(CellText(ColumnName(c), Numeral(a.rowIndex + 1)),
                                                      Some(CellText(ColumnName(last), Numeral(a.rowIndex + a.rowCount.value))))))
  {
    var x, dx := ColumnName(c), Numeral(a.rowIndex + 1);
    var y, dy := ColumnName(last), Numeral(a.rowIndex + a.rowCount.value);
    RangeFormat(n, a);
    assert NameAt(n, a.columnIndex) == x by { NameAtHeld(n, c); }
    assert NameAt(n, a.columnIndex + a.columnCount.GetOr(0) - 1) == y by { NameAtHeld(n, last); }
    RangeJoin(x, dx, y, dy);
  }

  /** A column the tables hold prints as its name. */
  lemma NameAtHeld(n: nat, i: nat)
    requires i < n
    ensures NameAt(n, i) == ColumnName(i)
  {
  }

  /** The two corners joined by a colon, as the pattern's groups spell them. */
  lemma RangeJoin(x: string, dx: string, y: string, dy: string)
    ensures x + dx + [':'] + y + dy == GroupsString(A1Groups(CellText(x, dx), Some(CellText(y, dy))))
  {
    assert x + dx + [':'] + y + dy == (x + dx) + [':'] + (y + dy);
  }

  /** Looking up the ordered corners of a range's text gives the range back. */
  lemma RangeLookup(n: nat, t: string, a: Address, last: nat)
    requires ValidAddress(a) && a.rowCount.Some? && a.rowCount.value >= 1
    requires a.columnCount.Some? && last == a.columnIndex + a.columnCount.value - 1
    requires a.columnIndex <= last < n
    ensures CornersResult(n, t, Corners(ColumnName(a.columnIndex), a.rowIndex + 1,
              Some((ColumnName(last), a.rowIndex + a.rowCount.value)))) == Ok(a)
  {
    IndexAtName(n, a.columnIndex);
    IndexAtName(n, last);
    var r := CornersResult(n, t, Corners(ColumnName(a.columnIndex), a.rowIndex + 1,
               Some((ColumnName(last), a.rowIndex + a.rowCount.value))));
    assert r.Ok?;
    assert r.value.rowCount == a.rowCount && r.value.columnCount == a.columnCount;
  }

  /** fromA1 on a text the pattern matches: it prepares for and looks up the ordered corners. */
  lemma FromA1OfMatch(n: nat, m: nat, t: string, g: A1Groups)
    requires MatchA1(t) == Some(g)
    ensures WellFormedGroups(g)
    ensures FromA1Prepared(n, t) == PreparedFor(n, Orient(g, false))
    ensures FromA1Result(m, t) == CornersResult(m, t, Orient(g, false))
  {
  }

  /**
   * fromA1(toA1(a)) == a for a range: a valid address with both counts at
   * least 1 whose last column is within ZZZ, on tables of any reachable
   * length. The tables toA1 leaves are the ones fromA1 starts from.
   */
  lemma RangeRoundTrip(n0: nat, a: Address)
    requires TableLength(n0) && ValidAddress(a)
    requires a.rowCount.Some? && a.rowCount.value >= 1
    requires a.columnCount.Some? && a.columnCount.value >= 1
    requires a.columnIndex + a.columnCount.value <= ALPHA3_COUNT
    ensures ToA1Text(ToA1Prepared(n0, a), a).Ok?
    ensures var n := ToA1Prepared(n0, a);
            var t := ToA1Text(n, a).value;
            FromA1Result(FromA1Prepared(n, t), t) == Ok(a)
  {
    var n := ToA1Prepared(n0, a);
    RangePrepared(n0, a);
    RangeText(n, a);
    RangeReadBack(n, a);
  }

  /** The text of a range whose last column the tables hold reads back as the range. */
  lemma RangeReadBack(n: nat, a: Address)
    requires TableLength(n) && ValidAddress(a)
    requires a.rowCount.Some? && a.rowCount.value >= 1
    requires a.columnCount.Some? && a.columnCount.value >= 1
    requires a.columnIndex + a.columnCount.value - 1 < n
    ensures var t := GroupsString(RangeGroups(a));
            FromA1Result(FromA1Prepared(n, t), t) == Ok(a)
  {
    var c: nat, last: nat := a.columnIndex, a.columnIndex + a.columnCount.value - 1;
    var x: nat, y: nat := a.rowIndex + 1, a.rowIndex + a.rowCount.value;
    var g := A1Groups(CornerText(c, x), Some(CornerText(last, y)));
    assert g == RangeGroups(a);
    var t := GroupsString(g);
    var corners := Corners(ColumnName(c), x, Some((ColumnName(last), y)));
    var m := PreparedFor(n, corners);
    PreparedCovers(n, corners, last);
    assert CornersResult(m, t, corners) == Ok(a) by {
      assert corners == Corners(ColumnName(a.columnIndex), a.rowIndex + 1,
                                Some((ColumnName(last), a.rowIndex + a.rowCount.value)));
      RangeLookup(m, t, a, last);
    }
    assert MatchA1(t) == Some(g) && WellFormedGroups(g) && Orient(g, false) == corners by {
      RangeCorners(c, last, x, y);
    }
    ReadBackOfParts(n, t, g, corners, a);
  }

  /** fromA1 reads a text as a when its ordered corners, looked up in the tables prepared for them, give a. */
  lemma ReadBackOfParts(n: nat, t: string, g: A1Groups, corners: Corners, a: Address)
    requires MatchA1(t) == Some(g) && WellFormedGroups(g) && Orient(g, false) == corners
    requires CornersResult(PreparedFor(n, corners), t, corners) == Ok(a)
    ensures FromA1Result(FromA1Prepared(n, t), t) == Ok(a)
  {
    FromA1OfMatch(n, PreparedFor(n, corners), t, g);
  }

  /** A single cell toA1 writes is matched back as that one corner. */
  lemma CellCorner(c: nat, x: nat)
    requires c < ALPHA3_COUNT && x >= 1
    ensures var g := A1Groups(CornerText(c, x), None);
            WellFormedGroups(g) && MatchA1(GroupsString(g)) == Some(g)
            && Orient(g, false) == Corners(ColumnName(c), x, None)
  {
    CornerWellFormed(c, x);
    MatchComplete(A1Groups(CornerText(c, x), None));
  }

  /**
   * fromA1(toA1(a)) == a for a single cell within ZZZ, except where the
   * preparation gap leaves its name out of the tables: column 26 (AA) before
   * the tables reach ZZ and column 702 (AAA) before they reach ZZZ.
   */
  lemma CellRoundTrip(n0: nat, a: Address)
    requires TableLength(n0) && ValidAddress(a)
    requires a.rowCount.None? && a.columnIndex < ALPHA3_COUNT
    requires a.columnIndex == ALPHA1_COUNT ==> n0 >= ALPHA2_COUNT
    requires a.columnIndex == ALPHA2_COUNT ==> n0 >= ALPHA3_COUNT
    ensures ToA1Text(ToA1Prepared(n0, a), a).Ok?
    ensures var n := ToA1Prepared(n0, a);
            var t := ToA1Text(n, a).value;
            FromA1Result(FromA1Prepared(n, t), t) == Ok(a)
  {
    var n := ToA1Prepared(n0, a);
    assert TableLength(n) && a.columnIndex < n;
    CellTextAt(n, a);
    CellReadBack(n, a);
  }

  /** The text toA1 writes for a single cell whose column the tables hold. */
  lemma CellTextAt(n: nat, a: Address)
    requires ValidAddress(a) && a.rowCount.None? && a.columnIndex < n
    ensures ToA1Text(n, a) == Ok(GroupsString(A1Groups(CornerText(a.columnIndex, a.rowIndex + 1), None)))
  {
    NameAtHeld(n, a.columnIndex);
  }

  /** The text of a single cell whose column the tables hold reads back as that cell. */
  lemma CellReadBack(n: nat, a: Address)
    requires TableLength(n) && ValidAddress(a) && a.rowCount.None? && a.columnIndex < n
    ensures var t := GroupsString(A1Groups(CornerText(a.columnIndex, a.rowIndex + 1), None));
            FromA1Result(FromA1Prepared(n, t), t) == Ok(a)
  {
    var c: nat, x: nat := a.columnIndex, a.rowIndex + 1;
    var g := A1Groups(CornerText(c, x), None);
    var t := GroupsString(g);
    CellCorner(c, x);
    var corners := Corners(ColumnName(c), x, None);
    PreparedCovers(n, corners, c);
    CellLookup(PreparedFor(n, corners), t, a);
    ReadBackOfParts(n, t, g, corners, a);
  }

  /** Looking up the corner of a single cell's text gives the cell back. */
  lemma CellLookup(n: nat, t: string, a: Address)
    requires ValidAddress(a) && a.rowCount.None? && a.columnIndex < n
    ensures CornersResult(n, t, Corners(ColumnName(a.columnIndex), a.rowIndex + 1, None)) == Ok(a)
  {
    IndexAtName(n, a.columnIndex);
  }

  // ----- The preparation gap in toA1 -----

  /**
   * As written, toA1 of the single cell at column 26 on tables that hold only
   * A..Z prepares nothing (26 + 0 is not greater than 26) and prints the
   * column as "undefined".
   */
  lemma ToA1GapExample()
    ensures var a := Address(0, ALPHA1_COUNT, None, None);
            ToA1Prepared(ALPHA1_COUNT, a) == ALPHA1_COUNT
            && ToA1Text(ToA1Prepared(ALPHA1_COUNT, a), a) == Ok(UNDEFINED_TEXT + "1")
  {
    var a := Address(0, ALPHA1_COUNT, None, None);
    IsNNIRange(0);
    IsNNIRange(ALPHA1_COUNT);
    assert ValidAddress(a);
    assert Numeral(1) == "1";
  }

  /** Preparation counting a single cell as one column wide: `columnIndex + (columnCount ?? 1)`. */
  function ToA1PreparedFixed(n: nat, a: Address): nat { ToA1PreparedWith(n, a, 1) }

  /**
   * With a single cell counted as one column wide, the tables always reach
   * every column toA1 prints, so it never prints "undefined" within ZZZ.
   */
  lemma ToA1FixedCovers(n0: nat, a: Address)
    requires TableLength(n0) && ValidAddress(a)
    requires a.columnCount.GetOr(1) >= 1 && a.columnIndex + a.columnCount.GetOr(1) <= ALPHA3_COUNT
    ensures a.columnIndex < ToA1PreparedFixed(n0, a)
    ensures a.columnCount.GetOr(0) >= 1 ==> a.columnIndex + a.columnCount.value - 1 < ToA1PreparedFixed(n0, a)
  {
  }

  /** With the fixed preparation, every cell within ZZZ survives the round trip, gap columns included. */
  lemma CellRoundTripFixed(n0: nat, a: Address)
    requires TableLength(n0) && ValidAddress(a)
    requires a.rowCount.None? && a.columnIndex < ALPHA3_COUNT
    ensures ToA1Text(ToA1PreparedFixed(n0, a), a).Ok?
    ensures var n := ToA1PreparedFixed(n0, a);
            var t := ToA1Text(n, a).value;
            FromA1Result(FromA1Prepared(n, t), t) == Ok(a)
  {
    var n := ToA1PreparedFixed(n0, a);
    ToA1FixedCovers(n0, a);
    assert TableLength(n);
    CellTextAt(n, a);
    CellReadBack(n, a);
  }


  // ----- The `lengh` typo in fromA1 -----

  lemma FromA1OfCorners(x: nat, y: nat)
    requires x < ALPHA3_COUNT && y < ALPHA3_COUNT
    ensures var g := A1Groups(CornerText(x, 1), Some(CornerText(y, 1)));
            MatchA1(GroupsString(g)) == Some(g)
  {
    CornerWellFormed(x, 1);
    CornerWellFormed(y, 1);
    MatchComplete(A1Groups(CornerText(x, 1), Some(CornerText(y, 1))));
  }

  /** The range text "AA1:B1": from column 26 back to column 1, both in row 1. */
  function BackwardRange(): A1Groups { A1Groups(CornerText(26, 1), Some(CornerText(1, 1))) }

  /** The corners of BackwardRange spell "AA1:B1". */
  lemma BackwardRangeText()
    ensures GroupsString(BackwardRange()) == "AA1:B1"
  {
    AlphabetCodes();
    var q, c := Split(26);
    assert ColumnName(26) == "AA";
    assert ColumnName(1) == "B";
    assert Numeral(1) == "1";
  }

  /**
   * As written, "AA1:B1" is not reordered (the letters differ in length and
   * `lengh` is undefined), so on tables that reach ZZZ it reads as a range
   * starting at AA with a negative column count, and on tables that hold
   * only A..Z the letters AA are looked up in tables that were not extended.
   */
  lemma FromA1TypoExample()
    ensures FromA1Result(ALPHA3_COUNT, "AA1:B1") == Ok(Address(0, 26, Some(1), Some(-24)))
    ensures FromA1Prepared(ALPHA1_COUNT, "AA1:B1") == ALPHA1_COUNT
    ensures FromA1Result(ALPHA1_COUNT, "AA1:B1") == Err(ColumnUndefined("AA1:B1"))
  {
    var t := GroupsString(BackwardRange());
    FromA1OfCorners(26, 1);
    BackwardReadsExtended(t);
    BackwardPreparesNothing(t);
    BackwardReadsInitial(t);
    BackwardRangeText();
  }

  /** "AA1:B1" keeps its corners as written: AA first, B last. */
  lemma BackwardRangeOrient()
    ensures WellFormedGroups(BackwardRange())
    ensures Orient(BackwardRange(), false) == Corners(ColumnName(26), 1, Some((ColumnName(1), 1)))
  {
    NameLength(26);
    NameLength(1);
    CornerWellFormed(26, 1);
    CornerWellFormed(1, 1);
  }

  /** On tables that reach ZZZ, the backward range starts at AA with a column count of -24. */
  lemma BackwardReadsExtended(t: string)
    requires MatchA1(t) == Some(BackwardRange())
    ensures FromA1Result(ALPHA3_COUNT, t) == Ok(Address(0, 26, Some(1), Some(-24)))
  {
    BackwardRangeOrient();
    FromA1OfMatch(ALPHA3_COUNT, ALPHA3_COUNT, t, BackwardRange());
    RowOneLookup(ALPHA3_COUNT, t, 26, 1);
  }

  /** Corners in row 1 whose columns the tables hold read as they are, whichever comes first. */
  lemma RowOneLookup(n: nat, t: string, x: nat, y: nat)
    requires x < n && y < n
    ensures CornersResult(n, t, Corners(ColumnName(x), 1, Some((ColumnName(y), 1))))
            == Ok(Address(0, x, Some(1), Some(y - x + 1)))
  {
    IndexAtName(n, x);
    IndexAtName(n, y);
  }

  /** The last corner, B, has one letter: fromA1 does not extend the tables. */
  lemma BackwardPreparesNothing(t: string)
    requires MatchA1(t) == Some(BackwardRange())
    ensures FromA1Prepared(ALPHA1_COUNT, t) == ALPHA1_COUNT
  {
    BackwardRangeOrient();
    FromA1OfMatch(ALPHA1_COUNT, ALPHA1_COUNT, t, BackwardRange());
    NameLength(1);
  }

  /** On the initial tables the first corner, AA, is not found. */
  lemma BackwardReadsInitial(t: string)
    requires MatchA1(t) == Some(BackwardRange())
    ensures FromA1Result(ALPHA1_COUNT, t) == Err(ColumnUndefined(t))
  {
    BackwardRangeOrient();
    FromA1OfMatch(ALPHA1_COUNT, ALPHA1_COUNT, t, BackwardRange());
    IndexAtBeyond(ALPHA1_COUNT, 26);
  }

  /** A column at or beyond the table length is not found under its name. */
  lemma IndexAtBeyond(n: nat, i: nat)
    requires n <= i
    ensures IndexAt(n, ColumnName(i)).None?
  {
    var r := IndexAt(n, ColumnName(i));
    if r.Some? {
      NameInjective(r.value, i);
    }
  }

  /** fromA1 with the evidently intended guard `alphaY.length < alphaX.length || ...`. */
  function FromA1PreparedFixed(n: nat, s: string): nat { FromA1PreparedWith(n, s, true) }

  function FromA1ResultFixed(n: nat, s: string): Result<Address, A1Error> { FromA1ResultWith(n, s, true) }

  /** A name that compares below another of the same length belongs to a smaller column. */
  lemma NameOrderBack(i: nat, j: nat)
    requires |ColumnName(i)| == |ColumnName(j)| && !LexLess(ColumnName(j), ColumnName(i))
    ensures i <= j
  {
    if j < i {
      NameOrder(j, i);
    }
  }

  /** Upper-case letters only: the case in which the tables can hold the corners. */
  predicate UpperGroups(g: A1Groups)
  {
    AllUpper(g.first.letters) && (g.second.Some? ==> AllUpper(g.second.value.letters))
  }

  /** A name of at most three letters lies below the tables prepared for its length. */
  lemma PreparedHolds(n: nat, s: string, len: nat)
    requires TableLength(n) && s != [] && AllUpper(s) && |s| <= len <= 3
    requires len == 2 ==> n >= ALPHA2_COUNT
    requires len == 3 ==> n == ALPHA3_COUNT
    ensures IndexAt(n, s).Some?
  {
    IndexToName(s);
    var v := ColumnIndexOf(s).value;
    NameLength(v);
    assert v < n;
  }

  /** The ordered corners of a range, with the intended guard, name columns in increasing order. */
  lemma OrderedCorners(n: nat, x: string, y: string)
    requires x != [] && y != [] && AllUpper(x) && AllUpper(y)
    requires !SwapColumns(x, y, true)
    requires IndexAt(n, x).Some? && IndexAt(n, y).Some?
    ensures IndexAt(n, x).value <= IndexAt(n, y).value
  {
    var i, j := IndexAt(n, x).value, IndexAt(n, y).value;
    if |x| == |y| {
      NameOrderBack(i, j);
    } else if j < i {
      NameLengthMonotone(j, i);
    }
  }

  /** With the intended guard, ordered corners are upper-case when written so, and no longer swappable. */
  lemma OrientFixed(g: A1Groups)
    requires WellFormedGroups(g) && UpperGroups(g)
    ensures var c := Orient(g, true);
            c.alphaX != [] && AllUpper(c.alphaX) && |c.alphaX| <= 3
            && (c.second.None? ==> c.alphaX == g.first.letters)
            && (c.second.Some? ==> var y := c.second.value.0;
                  y != [] && AllUpper(y) && |y| <= 3 && !SwapColumns(c.alphaX, y, true))
  {
    if g.second.Some? {
      var x, y := g.first.letters, g.second.value.letters;
      if SwapColumns(x, y, true) && |y| == |x| {
        LexAsymmetric(y, x);
      }
    }
  }

  lemma FromA1OfMatchFixed(n: nat, m: nat, t: string, g: A1Groups)
    requires MatchA1(t) == Some(g)
    ensures WellFormedGroups(g)
    ensures FromA1PreparedFixed(n, t) == PreparedFor(n, Orient(g, true))
    ensures FromA1ResultFixed(m, t) == CornersResult(m, t, Orient(g, true))
  {
  }

  /**
   * With the intended guard, every upper-case text the pattern matches reads
   * as an address on tables of any reachable length, and a range always has
   * positive counts whichever way round its corners are written.
   */
  lemma FromA1FixedRanges(n0: nat, s: string)
    requires TableLength(n0) && MatchA1(s).Some? && UpperGroups(MatchA1(s).value)
    ensures var r := FromA1ResultFixed(FromA1PreparedFixed(n0, s), s);
            r.Ok? && (r.value.columnCount.Some? ==> r.value.columnCount.value >= 1)
  {
    var g := MatchA1(s).value;
    var c := Orient(g, true);
    OrientFixed(g);
    var n := PreparedFor(n0, c);
    FromA1OfMatchFixed(n0, n, s, g);
    if c.second.None? {
      PreparedHolds(n, c.alphaX, |c.alphaX|);
    } else {
      var alphaY := c.second.value.0;
      PreparedHolds(n, c.alphaX, |alphaY|);
      PreparedHolds(n, alphaY, |alphaY|);
      OrderedCorners(n, c.alphaX, alphaY);
    }
  }
}
