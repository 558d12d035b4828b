/** `gen_sram_array`: the SPICE `.subckt` netlist of an `n_row` by `n_col` array of bit cells. */
module GenArray {
  import opened Decimal
  import opened Text
  import Bits

  /** The comment line the netlist opens with. */
  const Title: string := "* Generate SPICE code for SRAM row"

  /** The defaults of `bit_name`, `arr_name` and `nl`. */
  const DefaultBitName: string := "sram_bit"
  const DefaultArrName: string := "sram_array"
  const DefaultNl: string := "\n"

  /** The number of values `range(n)` yields: none for a negative `n`. */
  function RangeLen(n: int): (r: nat)
    ensures n >= 0 ==> r == n
    ensures n < 0 ==> r == 0
  {
    if n < 0 then 0 else n
  }

  /** A bus pin name such as `wl<3>`. */
  function Bracketed(base: string, n: nat): (r: string) {
    base + "<" + NatToString(n) + ">"
  }

  function WordLine(row: nat): (r: string) {
    Bracketed("wl", row)
  }

  function Lbl(col: nat): (r: string) {
    Bracketed("lbl", col)
  }

  function Lblb(col: nat): (r: string) {
    Bracketed("lblb", col)
  }

  /** The four fixed tokens the declaration starts with. */
  function DeclHead(arrName: string): (r: seq<string>) {
    [".subckt", arrName, "vdd", "vss"]
  }

  /** The word-line pins `wl<0>` .. `wl<n-1>`. */
  function WordLines(n: nat): (r: seq<string>)
    ensures |r| == n
  {
    if n == 0 then [] else WordLines(n - 1) + [WordLine(n - 1)]
  }

  /** The bit-line pin pairs `lbl<c> lblb<c>` for `c` in `0 .. n-1`. */
  function BitLines(n: nat): (r: seq<string>)
    ensures |r| == 2 * n
  {
    if n == 0 then [] else BitLines(n - 1) + [Lbl(n - 1), Lblb(n - 1)]
  }

  /** The declaration's tokens: the fixed head, the word lines, then the bit-line pairs. */
  function Pins(nRow: int, nCol: int, arrName: string): (r: seq<string>)
    ensures |r| == 4 + RangeLen(nRow) + 2 * RangeLen(nCol)
  {
    DeclHead(arrName) + WordLines(RangeLen(nRow)) + BitLines(RangeLen(nCol))
  }

  /** The instance name of the cell with row-major index `idx`. */
  function InstanceName(idx: nat): (r: string) {
    "X" + NatToString(idx)
  }

  /** The nodes a cell connects to, followed by the cell's subcircuit name. */
  function CellPins(row: nat, col: nat, bitName: string): (r: string) {
    Lbl(col) + " " + Lblb(col) + " vdd vss " + WordLine(row) + " " + bitName
  }

  /** The instance of the cell at (`row`, `col`), numbered row-major. */
  function InstanceLine(row: nat, col: nat, nCols: nat, bitName: string): (r: string)
    ensures |r| > |bitName| + 1 && r[0] == 'X'
  {
    InstanceName(row * nCols + col) + " " + CellPins(row, col, bitName)
  }

  /** The instance lines, described by their flat position `p`: cell (`p / nCols`, `p % nCols`). */
  function Instances(nRow: int, nCol: int, bitName: string): (r: seq<string>)
    ensures |r| == RangeLen(nRow) * RangeLen(nCol)
  {
    var nRows, nCols := RangeLen(nRow), RangeLen(nCol);
    if nCols == 0 then []
    else seq(nRows * nCols, p requires 0 <= p => InstanceLine(p / nCols, p % nCols, nCols, bitName))
  }

  /** The whole list of lines: title, blank, declaration, instances and `.ends`. */
  function Netlist(nRow: int, nCol: int, bitName: string, arrName: string): (r: seq<string>)
    ensures |r| == 4 + RangeLen(nRow) * RangeLen(nCol)
  {
    [Title, "", Join(Pins(nRow, nCol, arrName), " ")] + Instances(nRow, nCol, bitName) + [".ends"]
  }

  lemma MulMonotone(a: nat, b: nat, c: nat)
    requires a <= b
    ensures a * c <= b * c
  {
  }

  /** The row-major position of cell (`row`, `col`) in rows of `nCols` cells. */
  function Flat(row: nat, col: nat, nCols: nat): (p: nat) {
    row * nCols + col
  }

  /** A flat position below `nRows * nCols` is the row-major position of exactly one cell. */
  lemma RowMajor(p: nat, nRows: nat, nCols: nat)
    requires nCols > 0 && p < nRows * nCols
    ensures p / nCols < nRows && p % nCols < nCols
    ensures (p / nCols) * nCols + p % nCols == p
    ensures forall r: nat, c: nat :: c < nCols && Flat(r, c, nCols) == p ==> r == p / nCols && c == p % nCols
  {
    if p / nCols >= nRows {
      MulMonotone(nRows, p / nCols, nCols);
    }
    forall r: nat, c: nat | c < nCols && Flat(r, c, nCols) == p ensures r == p / nCols && c == p % nCols {
      assert p == nCols * r + c;
      Bits.DivUnique(p, nCols, r, c);
    }
  }

  lemma {:induction false} WordLinesLayout(n: nat)
    ensures forall r :: 0 <= r < n ==> WordLines(n)[r] == WordLine(r)
    decreases n
  {
    if n > 0 {
      WordLinesLayout(n - 1);
      assert WordLines(n) == WordLines(n - 1) + [WordLine(n - 1)];
    }
  }

  lemma {:induction false} BitLinesLayout(n: nat)
    ensures forall c :: 0 <= c < n ==> BitLines(n)[2 * c] == Lbl(c) && BitLines(n)[2 * c + 1] == Lblb(c)
    decreases n
  {
    if n > 0 {
      BitLinesLayout(n - 1);
      assert BitLines(n) == BitLines(n - 1) + [Lbl(n - 1), Lblb(n - 1)];
    }
  }

  /** Pin positions: the fixed head, `wl<r>` at `4 + r`, and `lbl<c>`, `lblb<c>` at `4 + n_row + 2c` and next. */
  lemma PinLayout(nRow: int, nCol: int, arrName: string)
    ensures var pins, nRows := Pins(nRow, nCol, arrName), RangeLen(nRow);
      && pins[..4] == [".subckt", arrName, "vdd", "vss"]
      && (forall r :: 0 <= r < nRows ==> pins[4 + r] == WordLine(r))
      && (forall c :: 0 <= c < RangeLen(nCol) ==>
            pins[4 + nRows + 2 * c] == Lbl(c) && pins[4 + nRows + 2 * c + 1] == Lblb(c))
  {
    var nRows, nCols := RangeLen(nRow), RangeLen(nCol);
    var pins := Pins(nRow, nCol, arrName);
    var head, wls, bls := DeclHead(arrName), WordLines(nRows), BitLines(nCols);
    assert pins == head + wls + bls;
    assert pins[..4] == head;
    assert pins[4..4 + nRows] == wls;
    assert pins[4 + nRows..] == bls;
    WordLinesLayout(nRows);
    forall r | 0 <= r < nRows ensures pins[4 + r] == WordLine(r) {
      assert pins[4 + r] == pins[4..4 + nRows][r];
    }
    BitLinesLayout(nCols);
    forall c | 0 <= c < nCols
      ensures pins[4 + nRows + 2 * c] == Lbl(c) && pins[4 + nRows + 2 * c + 1] == Lblb(c)
    {
      assert pins[4 + nRows + 2 * c] == pins[4 + nRows..][2 * c];
      assert pins[4 + nRows + 2 * c + 1] == pins[4 + nRows..][2 * c + 1];
    }
  }

  /** The pin list as `gen_sram_array` builds it: the fixed head, then one loop per kind of pin. */
  method DeclTokens(nRow: int, nCol: int, arrName: string) returns (decl: seq<string>)
    ensures decl == Pins(nRow, nCol, arrName)
    ensures |decl| == 4 + RangeLen(nRow) + 2 * RangeLen(nCol)
  {
    var nRows, nCols := RangeLen(nRow), RangeLen(nCol);
    decl := DeclHead(arrName);
    var row := 0;
    while row < nRow
      invariant 0 <= row <= nRows
      invariant decl == DeclHead(arrName) + WordLines(row)
    {
      decl := decl + [WordLine(row)];
      row := row + 1;
    }
    var col := 0;
    while col < nCol
      invariant 0 <= col <= nCols
      invariant decl == DeclHead(arrName) + WordLines(nRows) + BitLines(col)
    {
      decl := decl + [Lbl(col), Lblb(col)];
      col := col + 1;
    }
  }

  /** Line `r * nCols + c` of `ls` is the instance of cell (`r`, `c`). */
  predicate CellAt(ls: seq<string>, r: nat, c: nat, nCols: nat, bitName: string) {
    r * nCols + c < |ls| && ls[r * nCols + c] == InstanceLine(r, c, nCols, bitName)
  }

  /** Appending lines keeps every cell already placed. */
  lemma CellsKept(ls: seq<string>, more: seq<string>, rows: nat, cols: nat, nCols: nat, bitName: string)
    requires forall r, c :: 0 <= r < rows && 0 <= c < cols ==> CellAt(ls, r, c, nCols, bitName)
    ensures forall r, c :: 0 <= r < rows && 0 <= c < cols ==> CellAt(ls + more, r, c, nCols, bitName)
  {
    forall r, c | 0 <= r < rows && 0 <= c < cols ensures CellAt(ls + more, r, c, nCols, bitName) {
      assert CellAt(ls, r, c, nCols, bitName);
    }
  }

  /** Cells placed row-major at every position are the lines `Instances` describes. */
  lemma CellsMatch(ls: seq<string>, nRow: int, nCol: int, bitName: string)
    requires |ls| == RangeLen(nRow) * RangeLen(nCol)
    requires forall r, c :: 0 <= r < RangeLen(nRow) && 0 <= c < RangeLen(nCol) ==> CellAt(ls, r, c, RangeLen(nCol), bitName)
    ensures ls == Instances(nRow, nCol, bitName)
  {
    var nRows, nCols := RangeLen(nRow), RangeLen(nCol);
    if nCols > 0 {
      forall p | 0 <= p < |ls| ensures ls[p] == Instances(nRow, nCol, bitName)[p] {
        RowMajor(p, nRows, nCols);
        assert CellAt(ls, p / nCols, p % nCols, nCols, bitName);
      }
    }
  }

  /** The inner loop: the instance lines of one row, appended in column order. */
  method AppendRow(ls: seq<string>, row: nat, nCol: int, bitName: string) returns (r: seq<string>)
    ensures |r| == |ls| + RangeLen(nCol)
    ensures r[..|ls|] == ls
    ensures forall c :: 0 <= c < RangeLen(nCol) ==> r[|ls| + c] == InstanceLine(row, c, RangeLen(nCol), bitName)
  {
    var nCols := RangeLen(nCol);
    r := ls;
    var col: nat := 0;
    while col < nCol
      invariant col <= nCols
      invariant |r| == |ls| + col
      invariant r[..|ls|] == ls
      invariant forall c :: 0 <= c < col ==> r[|ls| + c] == InstanceLine(row, c, nCols, bitName)
    {
      var prev := r;
      r := r + [InstanceLine(row, col, nCols, bitName)];
      assert r[..|ls|] == ls by {
        assert r[..|prev|] == prev;
      }
      col := col + 1;
    }
  }

  /** A row appended after `row` full rows places every cell of rows up to and including `row`. */
  lemma RowPlaced(ls: seq<string>, r: seq<string>, row: nat, nCols: nat, bitName: string)
    requires |ls| == row * nCols && |r| == |ls| + nCols && r[..|ls|] == ls
    requires forall c :: 0 <= c < nCols ==> r[|ls| + c] == InstanceLine(row, c, nCols, bitName)
    requires forall i, c :: 0 <= i < row && 0 <= c < nCols ==> CellAt(ls, i, c, nCols, bitName)
    ensures |r| == (row + 1) * nCols
    ensures forall i, c :: 0 <= i < row + 1 && 0 <= c < nCols ==> CellAt(r, i, c, nCols, bitName)
  {
    assert r == ls + r[|ls|..];
    CellsKept(ls, r[|ls|..], row, nCols, nCols, bitName);
    forall c | 0 <= c < nCols ensures CellAt(r, row, c, nCols, bitName) {
      assert r[|ls| + c] == InstanceLine(row, c, nCols, bitName);
    }
  }

  /** The instance lines as `gen_sram_array` builds them: rows outside, columns inside. */
  method InstanceLines(nRow: int, nCol: int, bitName: string) returns (ls: seq<string>)
    ensures |ls| == RangeLen(nRow) * RangeLen(nCol)
    ensures forall row, col :: 0 <= row < RangeLen(nRow) && 0 <= col < RangeLen(nCol) ==>
              CellAt(ls, row, col, RangeLen(nCol), bitName)
    ensures ls == Instances(nRow, nCol, bitName)
  {
    var nRows, nCols := RangeLen(nRow), RangeLen(nCol);
    ls := [];
    var row: nat := 0;
    while row < nRow
      invariant row <= nRows
      invariant |ls| == row * nCols
      invariant forall r, c :: 0 <= r < row && 0 <= c < nCols ==> CellAt(ls, r, c, nCols, bitName)
    {
      var next := AppendRow(ls, row, nCol, bitName);
      RowPlaced(ls, next, row, nCols, bitName);
      ls := next;
      row := row + 1;
    }
    CellsMatch(ls, nRow, nCol, bitName);
  }

  /** The netlist has title, blank and declaration lines, one line per cell, then `.ends`. */
  lemma NetlistShape(nRow: int, nCol: int, bitName: string, arrName: string)
    ensures var lines := Netlist(nRow, nCol, bitName, arrName);
      && |lines| == 4 + RangeLen(nRow) * RangeLen(nCol)
      && lines[0] == Title && lines[1] == "" && lines[|lines| - 1] == ".ends"
      && (forall p :: 0 <= p < RangeLen(nRow) * RangeLen(nCol) ==> lines[3 + p] == Instances(nRow, nCol, bitName)[p])
  {
  }

  /** `gen_sram_array` up to the file write: the list of lines and the text written. */
  method GenSramArray(nRow: int, nCol: int, bitName: string, arrName: string, nl: string)
    returns (lines: seq<string>, text: string)
    ensures lines == Netlist(nRow, nCol, bitName, arrName)
    ensures |lines| == 4 + RangeLen(nRow) * RangeLen(nCol)
    ensures lines[0] == Title && lines[1] == "" && lines[|lines| - 1] == ".ends"
    ensures text == Join(lines, nl)
  {
    var decl := DeclTokens(nRow, nCol, arrName);
    var body := InstanceLines(nRow, nCol, bitName);
    lines := [Title, "", Join(decl, " ")] + body + [".ends"];
    NetlistShape(nRow, nCol, bitName, arrName);
    text := Join(lines, nl);
  }

  /** A space or a control character, such as the default separator `'\n'`, is no digit. */
  lemma ControlOrSpaceNotDigit(c: char, n: nat)
    requires c == ' ' || c < ' '
    ensures c !in NatToString(n)
  {
  }

  /** A space or a control character occurs in a bus pin name only through its base. */
  lemma BracketedAvoids(base: string, n: nat, c: char)
    requires c == ' ' || c < ' '
    requires c !in base
    ensures c !in Bracketed(base, n)
  {
    ControlOrSpaceNotDigit(c, n);
  }

  lemma {:induction false} WordLinesAvoid(n: nat, c: char)
    requires c == ' ' || c < ' '
    ensures forall k :: 0 <= k < n ==> c !in WordLines(n)[k]
    decreases n
  {
    if n > 0 {
      WordLinesAvoid(n - 1, c);
      BracketedAvoids("wl", n - 1, c);
      assert WordLines(n) == WordLines(n - 1) + [WordLine(n - 1)];
    }
  }

  lemma {:induction false} BitLinesAvoid(n: nat, c: char)
    requires c == ' ' || c < ' '
    ensures forall k :: 0 <= k < 2 * n ==> c !in BitLines(n)[k]
    decreases n
  {
    if n > 0 {
      BitLinesAvoid(n - 1, c);
      BracketedAvoids("lbl", n - 1, c);
      BracketedAvoids("lblb", n - 1, c);
      assert BitLines(n) == BitLines(n - 1) + [Lbl(n - 1), Lblb(n - 1)];
    }
  }

  /** Every pin is a single token: none holds a space, given that the array name holds none. */
  lemma PinsAvoid(nRow: int, nCol: int, arrName: string, c: char)
    requires c !in arrName && (c == ' ' || c < ' ')
    ensures forall k :: 0 <= k < |Pins(nRow, nCol, arrName)| ==> c !in Pins(nRow, nCol, arrName)[k]
  {
    var nRows, nCols := RangeLen(nRow), RangeLen(nCol);
    var pins := Pins(nRow, nCol, arrName);
    var head, wls, bls := DeclHead(arrName), WordLines(nRows), BitLines(nCols);
    assert pins == head + wls + bls;
    WordLinesAvoid(nRows, c);
    BitLinesAvoid(nCols, c);
    forall k | 0 <= k < |pins| ensures c !in pins[k] {
      if k < 4 {
        assert pins[k] == head[k];
      } else if k < 4 + nRows {
        assert pins[k] == wls[k - 4];
      } else {
        assert pins[k] == bls[k - 4 - nRows];
      }
    }
  }

  /** Splitting the declaration line on spaces gives back the pin list. */
  lemma DeclarationTokens(nRow: int, nCol: int, bitName: string, arrName: string)
    requires ' ' !in arrName
    ensures Split(Netlist(nRow, nCol, bitName, arrName)[2], ' ') == Pins(nRow, nCol, arrName)
  {
    PinsAvoid(nRow, nCol, arrName, ' ');
    SplitJoin(Pins(nRow, nCol, arrName), ' ');
  }

  /** The first token of an instance line is `X` followed by the cell's row-major index. */
  lemma InstanceHead(row: nat, col: nat, nCols: nat, bitName: string)
    ensures Split(InstanceLine(row, col, nCols, bitName), ' ')[0] == InstanceName(row * nCols + col)
  {
    var idx := row * nCols + col;
    var name, rest := InstanceName(idx), CellPins(row, col, bitName);
    assert ' ' !in name by {
      ControlOrSpaceNotDigit(' ', idx);
    }
    assert InstanceLine(row, col, nCols, bitName) == name + [' '] + rest;
    SplitAfterPiece(name, ' ', rest);
  }

  /** An instance line ends with a space and the cell's subcircuit name. */
  lemma InstanceTail(row: nat, col: nat, nCols: nat, bitName: string)
    ensures var line := InstanceLine(row, col, nCols, bitName);
      line[..|line| - |bitName| - 1] == InstanceName(row * nCols + col) + " " + Lbl(col) + " " + Lblb(col)
        + " vdd vss " + WordLine(row)
      && line[|line| - |bitName| - 1..] == " " + bitName
  {
  }

  /** Instance names are as distinct as the indices they carry. */
  lemma InstanceNameInjective(p: nat, q: nat)
    ensures InstanceName(p) == InstanceName(q) <==> p == q
  {
    if InstanceName(p) == InstanceName(q) {
      assert InstanceName(p)[1..] == NatToString(p);
      assert InstanceName(q)[1..] == NatToString(q);
      NatToStringInjective(p, q);
    }
  }

  /**
   * Instance line `p` is named `X<p>`: each index below `n_row * n_col` names exactly one
   * line, and two lines share a name only when they are the same line.
   */
  lemma InstanceIndexOnce(nRow: int, nCol: int, bitName: string)
    ensures forall p :: 0 <= p < |Instances(nRow, nCol, bitName)| ==>
              Split(Instances(nRow, nCol, bitName)[p], ' ')[0] == "X" + NatToString(p)
    ensures forall p, q :: 0 <= p < |Instances(nRow, nCol, bitName)| && 0 <= q < |Instances(nRow, nCol, bitName)| ==>
              (Split(Instances(nRow, nCol, bitName)[p], ' ')[0] == Split(Instances(nRow, nCol, bitName)[q], ' ')[0] <==> p == q)
  {
    var ls := Instances(nRow, nCol, bitName);
    var nRows, nCols := RangeLen(nRow), RangeLen(nCol);
    forall p | 0 <= p < |ls| ensures Split(ls[p], ' ')[0] == InstanceName(p) {
      RowMajor(p, nRows, nCols);
      InstanceHead(p / nCols, p % nCols, nCols, bitName);
    }
    forall p, q | 0 <= p < |ls| && 0 <= q < |ls|
      ensures Split(ls[p], ' ')[0] == Split(ls[q], ' ')[0] <==> p == q
    {
      InstanceNameInjective(p, q);
    }
  }

  lemma CellPinsAvoid(row: nat, col: nat, bitName: string, c: char)
    requires c < ' ' && c !in bitName
    ensures c !in CellPins(row, col, bitName)
  {
    BracketedAvoids("lbl", col, c);
    BracketedAvoids("lblb", col, c);
    BracketedAvoids("wl", row, c);
  }

  /** An instance line holds a control character only through the cell's subcircuit name. */
  lemma InstanceLineAvoids(row: nat, col: nat, nCols: nat, bitName: string, c: char)
    requires c < ' ' && c !in bitName
    ensures c !in InstanceLine(row, col, nCols, bitName)
  {
    ControlOrSpaceNotDigit(c, row * nCols + col);
    assert c !in InstanceName(row * nCols + col);
    CellPinsAvoid(row, col, bitName, c);
  }

  lemma TitleAvoids(c: char)
    requires c < ' '
    ensures c !in Title
  {
  }

  lemma DeclarationAvoids(nRow: int, nCol: int, arrName: string, c: char)
    requires c < ' ' && c !in arrName
    ensures c !in Join(Pins(nRow, nCol, arrName), " ")
  {
    PinsAvoid(nRow, nCol, arrName, c);
    JoinAvoids(Pins(nRow, nCol, arrName), " ", c);
  }

  lemma InstancesAvoid(nRow: int, nCol: int, bitName: string, c: char)
    requires c < ' ' && c !in bitName
    ensures forall p :: 0 <= p < |Instances(nRow, nCol, bitName)| ==> c !in Instances(nRow, nCol, bitName)[p]
  {
    var ls := Instances(nRow, nCol, bitName);
    var nRows, nCols := RangeLen(nRow), RangeLen(nCol);
    forall p | 0 <= p < |ls| ensures c !in ls[p] {
      assert nCols > 0 && p < nRows * nCols;
      RowMajor(p, nRows, nCols);
      assert ls[p] == InstanceLine(p / nCols, p % nCols, nCols, bitName);
      InstanceLineAvoids(p / nCols, p % nCols, nCols, bitName, c);
    }
  }

  /** No line of the netlist holds the control character `c` when neither name does. */
  lemma LinesAvoid(nRow: int, nCol: int, bitName: string, arrName: string, c: char)
    requires c < ' ' && c !in arrName && c !in bitName
    ensures forall i :: 0 <= i < |Netlist(nRow, nCol, bitName, arrName)| ==> c !in Netlist(nRow, nCol, bitName, arrName)[i]
  {
    var lines := Netlist(nRow, nCol, bitName, arrName);
    var ls := Instances(nRow, nCol, bitName);
    TitleAvoids(c);
    DeclarationAvoids(nRow, nCol, arrName, c);
    InstancesAvoid(nRow, nCol, bitName, c);
    forall i | 0 <= i < |lines| ensures c !in lines[i] {
      if 3 <= i < 3 + |ls| {
        assert lines[i] == ls[i - 3];
      }
    }
  }

  /** The written text ends in `nl` then `.ends`: the separator sits between lines only. */
  lemma TextEnds(nRow: int, nCol: int, bitName: string, arrName: string, nl: string)
    ensures var lines := Netlist(nRow, nCol, bitName, arrName);
      Join(lines, nl) == Join(lines[..|lines| - 1], nl) + nl + ".ends"
  {
    var lines := Netlist(nRow, nCol, bitName, arrName);
    JoinSnoc(lines[..|lines| - 1], ".ends", nl);
    assert lines[..|lines| - 1] + [".ends"] == lines;
  }

  /** Splitting the written text on a one-character separator gives the lines back. */
  lemma TextSplitsIntoLines(nRow: int, nCol: int, bitName: string, arrName: string, c: char)
    requires c < ' ' && c !in arrName && c !in bitName
    ensures Split(Join(Netlist(nRow, nCol, bitName, arrName), [c]), c) == Netlist(nRow, nCol, bitName, arrName)
  {
    LinesAvoid(nRow, nCol, bitName, arrName, c);
    SplitJoin(Netlist(nRow, nCol, bitName, arrName), c);
  }

  /**
   * A call that keeps the defaults: the declaration splits back into its pins and the
   * written text splits back into its lines at `'\n'`.
   */
  lemma DefaultCall(nRow: int, nCol: int)
    ensures DefaultNl == ['\n']
    ensures var lines := Netlist(nRow, nCol, DefaultBitName, DefaultArrName);
      && Split(lines[2], ' ') == Pins(nRow, nCol, DefaultArrName)
      && Split(Join(lines, DefaultNl), '\n') == lines
  {
    assert ' ' !in DefaultArrName && '\n' !in DefaultArrName && '\n' !in DefaultBitName;
    DeclarationTokens(nRow, nCol, DefaultBitName, DefaultArrName);
    TextSplitsIntoLines(nRow, nCol, DefaultBitName, DefaultArrName, '\n');
  }

  /** The script's own call, a 4 by 8 array: 36 lines, the declaration holding 24 tokens. */
  lemma MainCall()
    ensures var lines := Netlist(4, 8, DefaultBitName, DefaultArrName);
      && |lines| == 36
      && Split(lines[2], ' ') == Pins(4, 8, DefaultArrName)
      && |Pins(4, 8, DefaultArrName)| == 24
      && Split(Join(lines, DefaultNl), '\n') == lines
  {
    DefaultCall(4, 8);
  }
}
