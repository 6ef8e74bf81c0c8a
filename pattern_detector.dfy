/** Win-pattern detection over a 5x5 card and the list of marked numbers:
    the five `check*` functions of the game manager, the precedence that
    `checkForBingo` applies to their results, and `formatPattern`.

    A card is column-major, `card[col][row]`. The centre cell (2, 2) is free:
    every checker skips it, so its value never matters. */
module PatternDetector {
  import opened Wrappers

  /** A row or column index of the 5x5 grid. */
  type Index = i: int | 0 <= i < 5

  /** A grid position, column first. */
  datatype Cell = Cell(col: Index, row: Index)

  const Free: Cell := Cell(2, 2)

  predicate ValidGrid(card: seq<seq<int>>)
  {
    |card| == 5 && forall c :: 0 <= c < 5 ==> |card[c]| == 5
  }

  /** The shapes the checkers look for. */
  datatype Shape = Row(r: Index) | Column(c: Index) | MainDiagonal | AntiDiagonal | FourCorners | FullHouse

  /** The positions a checker visits for a shape, in its loop order, the free cell included. */
  function Positions(s: Shape): seq<Cell>
  {
    match s
    case Row(r) => seq(5, c requires 0 <= c < 5 => Cell(c, r))
    case Column(c) => seq(5, r requires 0 <= r < 5 => Cell(c, r))
    case MainDiagonal => [Cell(0, 0), Cell(1, 1), Cell(2, 2), Cell(3, 3), Cell(4, 4)]
    case AntiDiagonal => [Cell(4, 0), Cell(3, 1), Cell(2, 2), Cell(1, 3), Cell(0, 4)]
    case FourCorners => [Cell(0, 0), Cell(4, 0), Cell(0, 4), Cell(4, 4)]
    case FullHouse => seq(25, i requires 0 <= i < 25 => Cell(i / 5, i % 5))
  }

  /** `ps` with the free cell skipped, order kept. */
  function WithoutFree(ps: seq<Cell>): (r: seq<Cell>)
    ensures |r| <= |ps|
  {
    if ps == [] then []
    else
      var last := ps[|ps| - 1];
      assert ps == ps[..|ps| - 1] + [last];
      WithoutFree(ps[..|ps| - 1]) + (if last == Free then [] else [last])
  }

  lemma {:induction false} WithoutFreeMembers(ps: seq<Cell>)
    ensures forall p :: p in WithoutFree(ps) <==> p in ps && p != Free
    ensures Free !in ps ==> WithoutFree(ps) == ps
  {
    if ps != [] {
      WithoutFreeMembers(ps[..|ps| - 1]);
      assert ps == ps[..|ps| - 1] + [ps[|ps| - 1]];
    }
  }

  lemma WithoutFreeSnoc(ps: seq<Cell>, p: Cell)
    ensures WithoutFree(ps + [p]) == WithoutFree(ps) + (if p == Free then [] else [p])
  {
    assert (ps + [p])[..|ps + [p]| - 1] == ps;
  }

  /** The cells of a shape that have to be marked. */
  function Cells(s: Shape): seq<Cell>
  {
    WithoutFree(Positions(s))
  }

  /** The numbers at the given cells, in order. */
  function NumbersAt(card: seq<seq<int>>, cells: seq<Cell>): (ns: seq<int>)
    requires ValidGrid(card)
    ensures |ns| == |cells|
  {
    if cells == [] then []
    else
      var last := cells[|cells| - 1];
      NumbersAt(card, cells[..|cells| - 1]) + [card[last.col][last.row]]
  }

  lemma {:induction false} NumbersAtIndex(card: seq<seq<int>>, cells: seq<Cell>)
    requires ValidGrid(card)
    ensures forall i :: 0 <= i < |cells| ==> NumbersAt(card, cells)[i] == card[cells[i].col][cells[i].row]
  {
    if cells != [] {
      NumbersAtIndex(card, cells[..|cells| - 1]);
    }
  }

  /** Every number of `numbers` is in `marked` (stated from the end, the order a checker collects them). */
  predicate AllMarked(numbers: seq<int>, marked: seq<int>)
  {
    numbers == [] || (AllMarked(numbers[..|numbers| - 1], marked) && numbers[|numbers| - 1] in marked)
  }

  lemma AllMarkedSnoc(numbers: seq<int>, x: int, marked: seq<int>)
    ensures AllMarked(numbers + [x], marked) <==> AllMarked(numbers, marked) && x in marked
  {
    assert (numbers + [x])[..|numbers|] == numbers;
  }

  lemma {:induction false} AllMarkedMeans(numbers: seq<int>, marked: seq<int>)
    ensures AllMarked(numbers, marked) <==> forall i :: 0 <= i < |numbers| ==> numbers[i] in marked
  {
    if numbers != [] {
      var init := numbers[..|numbers| - 1];
      AllMarkedMeans(init, marked);
      assert forall i :: 0 <= i < |init| ==> init[i] == numbers[i];
    }
  }

  /** Every cell of the shape that has to be marked is marked. */
  predicate Complete(card: seq<seq<int>>, marked: seq<int>, s: Shape)
    requires ValidGrid(card)
  {
    AllMarked(NumbersAt(card, Cells(s)), marked)
  }

  /** A shape is complete iff every position it covers other than the centre holds a marked number. */
  lemma CompleteIffMarkedExceptCentre(card: seq<seq<int>>, marked: seq<int>, s: Shape)
    requires ValidGrid(card)
    ensures Complete(card, marked, s) <==>
              forall p :: p in Positions(s) && p != Free ==> card[p.col][p.row] in marked
  {
    var cs := Cells(s);
    var ns := NumbersAt(card, cs);
    WithoutFreeMembers(Positions(s));
    AllMarkedMeans(ns, marked);
    NumbersAtIndex(card, cs);
    if Complete(card, marked, s) {
      forall p | p in Positions(s) && p != Free ensures card[p.col][p.row] in marked {
        assert p in cs;
        var i :| 0 <= i < |cs| && cs[i] == p;
        assert ns[i] == card[p.col][p.row];
      }
    }
  }

  /** Full house is complete iff every cell of the card other than the centre holds a marked number. */
  lemma FullHouseCompleteIff(card: seq<seq<int>>, marked: seq<int>)
    requires ValidGrid(card)
    ensures Complete(card, marked, FullHouse) <==>
              forall c: Index, r: Index :: Cell(c, r) != Free ==> card[c][r] in marked
  {
    CompleteIffMarkedExceptCentre(card, marked, FullHouse);
    forall c: Index, r: Index ensures Cell(c, r) in Positions(FullHouse) {
      assert Positions(FullHouse)[5 * c + r] == Cell(c, r);
    }
  }

  /** The names the checkers report. */
  const RowNames: seq<string> :=
    ["horizontal-line-1", "horizontal-line-2", "horizontal-line-3", "horizontal-line-4", "horizontal-line-5"]
  const ColumnNames: seq<string> :=
    ["vertical-line-B", "vertical-line-I", "vertical-line-N", "vertical-line-G", "vertical-line-O"]

  function ShapeName(s: Shape): string
  {
    match s
    case Row(r) => RowNames[r]
    case Column(c) => ColumnNames[c]
    case MainDiagonal => "diagonal-main"
    case AntiDiagonal => "diagonal-anti"
    case FourCorners => "four-corners"
    case FullHouse => "full-house"
  }

  /** A checker's result: `{ pattern, numbers }`. */
  datatype Pattern = Pattern(pattern: string, numbers: seq<int>)

  /** What a checker reports for a complete shape: the shape's numbers, or for
      full house the whole marked list. */
  function PatternOf(card: seq<seq<int>>, marked: seq<int>, s: Shape): Pattern
    requires ValidGrid(card)
  {
    if s == FullHouse then Pattern("full-house", marked)
    else Pattern(ShapeName(s), NumbersAt(card, Cells(s)))
  }

  // ---------------------------------------------------------------------------
  // Precedence.

  /** The first element of `xs` that satisfies `p`, if any. */
  function FirstWhere<T>(p: T -> bool, xs: seq<T>): (r: Option<T>)
    ensures r.None? <==> forall i :: 0 <= i < |xs| ==> !p(xs[i])
    ensures r.Some? ==> r.value in xs && p(r.value)
  {
    if xs == [] then None
    else if p(xs[0]) then Some(xs[0])
    else
      var r := FirstWhere(p, xs[1..]);
      assert forall i :: 1 <= i < |xs| ==> xs[i] == xs[1..][i - 1];
      r
  }

  /** The element found is the one that satisfies `p` after a run of elements that do not. */
  lemma {:induction false} FirstWhereAt<T>(p: T -> bool, xs: seq<T>, i: nat)
    requires i < |xs| && p(xs[i])
    requires forall j :: 0 <= j < i ==> !p(xs[j])
    ensures FirstWhere(p, xs) == Some(xs[i])
  {
    if i > 0 {
      assert !p(xs[0]);
      assert forall j :: 0 <= j < i - 1 ==> xs[1..][j] == xs[j + 1];
      FirstWhereAt(p, xs[1..], i - 1);
    }
  }

  lemma {:induction false} FirstWhereAppend<T>(p: T -> bool, a: seq<T>, b: seq<T>)
    ensures FirstWhere(p, a + b) == if FirstWhere(p, a).Some? then FirstWhere(p, a) else FirstWhere(p, b)
  {
    if a != [] {
      assert (a + b)[1..] == a[1..] + b;
      FirstWhereAppend(p, a[1..], b);
    } else {
      assert a + b == b;
    }
  }

  /** Completeness of shapes on a given card and marked list, as a test. */
  function Completes(card: seq<seq<int>>, marked: seq<int>): Shape -> bool
  {
    s => ValidGrid(card) && Complete(card, marked, s)
  }

  /** The pattern a checker reports over `shapes`: that of the first complete one. */
  function FirstPattern(card: seq<seq<int>>, marked: seq<int>, shapes: seq<Shape>): Option<Pattern>
    requires ValidGrid(card)
  {
    match FirstWhere(Completes(card, marked), shapes)
    case None => None
    case Some(s) => Some(PatternOf(card, marked, s))
  }

  lemma FirstPatternAppend(card: seq<seq<int>>, marked: seq<int>, a: seq<Shape>, b: seq<Shape>)
    requires ValidGrid(card)
    ensures FirstPattern(card, marked, a + b) ==
              if FirstPattern(card, marked, a).Some? then FirstPattern(card, marked, a) else FirstPattern(card, marked, b)
  {
    FirstWhereAppend(Completes(card, marked), a, b);
  }

  /** A checker over `shapes` reports nothing iff none of them is complete. */
  lemma FirstPatternNone(card: seq<seq<int>>, marked: seq<int>, shapes: seq<Shape>)
    requires ValidGrid(card)
    ensures FirstPattern(card, marked, shapes).None? <==>
              forall j :: 0 <= j < |shapes| ==> !Complete(card, marked, shapes[j])
  {
    var p := Completes(card, marked);
    assert forall j :: 0 <= j < |shapes| ==> p(shapes[j]) == Complete(card, marked, shapes[j]);
  }

  /** A checker over `shapes` reports the pattern of the first complete one. */
  lemma FirstPatternAt(card: seq<seq<int>>, marked: seq<int>, shapes: seq<Shape>, i: nat)
    requires ValidGrid(card) && i < |shapes|
    requires Complete(card, marked, shapes[i])
    requires forall j :: 0 <= j < i ==> !Complete(card, marked, shapes[j])
    ensures FirstPattern(card, marked, shapes) == Some(PatternOf(card, marked, shapes[i]))
  {
    var p := Completes(card, marked);
    assert forall j :: 0 <= j <= i ==> p(shapes[j]) == Complete(card, marked, shapes[j]);
    FirstWhereAt(p, shapes, i);
  }

  /** The rows, top to bottom. */
  function RowShapes(): (shapes: seq<Shape>)
    ensures |shapes| == 5 && forall r: Index :: shapes[r] == Row(r)
  {
    seq(5, r requires 0 <= r < 5 => Row(r))
  }

  /** The columns, B to O. */
  function ColumnShapes(): (shapes: seq<Shape>)
    ensures |shapes| == 5 && forall c: Index :: shapes[c] == Column(c)
  {
    seq(5, c requires 0 <= c < 5 => Column(c))
  }
  const DiagonalShapes: seq<Shape> := [MainDiagonal, AntiDiagonal]

  /** The order in which `checkForBingo` considers the shapes. */
  const Precedence: seq<Shape> := RowShapes() + ColumnShapes() + DiagonalShapes + [FourCorners, FullHouse]

  /** The reference result of a bingo check: the pattern of the first complete
      shape in precedence order. */
  function Evaluate(card: seq<seq<int>>, marked: seq<int>): Option<Pattern>
    requires ValidGrid(card)
  {
    FirstPattern(card, marked, Precedence)
  }

  // ---------------------------------------------------------------------------
  // The checkers.

  lemma NumbersAtSnoc(card: seq<seq<int>>, cells: seq<Cell>, p: Cell)
    requires ValidGrid(card)
    ensures NumbersAt(card, cells + [p]) == NumbersAt(card, cells) + [card[p.col][p.row]]
  {
    assert (cells + [p])[..|cells|] == cells;
  }

  /** One step of a checker's inner loop over the positions `ps`: visiting
      `ps[k]` either skips the free cell or appends its number. */
  lemma VisitStep(card: seq<seq<int>>, ps: seq<Cell>, k: nat)
    requires ValidGrid(card) && k < |ps|
    ensures NumbersAt(card, WithoutFree(ps[..k + 1])) ==
              NumbersAt(card, WithoutFree(ps[..k])) + (if ps[k] == Free then [] else [card[ps[k].col][ps[k].row]])
  {
    assert ps[..k + 1] == ps[..k] + [ps[k]];
    WithoutFreeSnoc(ps[..k], ps[k]);
    if ps[k] != Free {
      NumbersAtSnoc(card, WithoutFree(ps[..k]), ps[k]);
    } else {
      assert WithoutFree(ps[..k + 1]) == WithoutFree(ps[..k]);
    }
  }

  /** The inner loop of the line checkers: visit the positions of a line in
      order, skip the free centre, collect each number and note whether it
      is marked. */
  method ScanLine(card: seq<seq<int>>, marked: seq<int>, line: Shape) returns (numbers: seq<int>, complete: bool)
    requires ValidGrid(card) && line != FullHouse
    ensures Pattern(ShapeName(line), numbers) == PatternOf(card, marked, line)
    ensures complete == Complete(card, marked, line)
  {
    var ps := Positions(line);
    complete := true;
    numbers := [];
    for k := 0 to |ps|
      invariant numbers == NumbersAt(card, WithoutFree(ps[..k]))
      invariant complete == AllMarked(numbers, marked)
    {
      VisitStep(card, ps, k);
      var p := ps[k];
      if p == Free {
        continue;
      }
      var num := card[p.col][p.row];
      AllMarkedSnoc(numbers, num, marked);
      numbers := numbers + [num];
      if num !in marked {
        complete := false;
      }
    }
    assert ps[..|ps|] == ps;
  }

  /** The outer loop of the line checkers: scan the lines of a group in
      order and report the first one whose numbers are all marked, named as
      the checker names it. */
  method ScanLines(card: seq<seq<int>>, marked: seq<int>, lines: seq<Shape>) returns (r: Option<Pattern>)
    requires ValidGrid(card) && FullHouse !in lines
    ensures r == FirstPattern(card, marked, lines)
  {
    for i := 0 to |lines|
      invariant forall j :: 0 <= j < i ==> !Complete(card, marked, lines[j])
    {
      var numbers, complete := ScanLine(card, marked, lines[i]);
      if complete {
        FirstPatternAt(card, marked, lines, i);
        return Some(Pattern(ShapeName(lines[i]), numbers));
      }
    }
    FirstPatternNone(card, marked, lines);
    return None;
  }

  /** `checkHorizontalLines`: the first row, top to bottom, whose numbers are
      all marked, reported as `horizontal-line-<row + 1>`. */
  method CheckHorizontalLines(card: seq<seq<int>>, marked: seq<int>) returns (r: Option<Pattern>)
    requires ValidGrid(card)
    ensures r == FirstPattern(card, marked, RowShapes())
  {
    r := ScanLines(card, marked, RowShapes());
  }

  /** `checkVerticalLines`: the first column, B to O, whose numbers are all
      marked, reported as `vertical-line-<letter>`. */
  method CheckVerticalLines(card: seq<seq<int>>, marked: seq<int>) returns (r: Option<Pattern>)
    requires ValidGrid(card)
    ensures r == FirstPattern(card, marked, ColumnShapes())
  {
    r := ScanLines(card, marked, ColumnShapes());
  }

  /** `checkDiagonals`: the main diagonal (top-left to bottom-right), then the anti-diagonal. */
  method CheckDiagonals(card: seq<seq<int>>, marked: seq<int>) returns (r: Option<Pattern>)
    requires ValidGrid(card)
    ensures r == FirstPattern(card, marked, DiagonalShapes)
  {
    var mainNumbers, mainComplete := ScanLine(card, marked, MainDiagonal);
    if mainComplete {
      FirstPatternAt(card, marked, DiagonalShapes, 0);
      return Some(Pattern("diagonal-main", mainNumbers));
    }
    var antiNumbers, antiComplete := ScanLine(card, marked, AntiDiagonal);
    if antiComplete {
      FirstPatternAt(card, marked, DiagonalShapes, 1);
      return Some(Pattern("diagonal-anti", antiNumbers));
    }
    FirstPatternNone(card, marked, DiagonalShapes);
    return None;
  }

  /** The numbers of the four-corners shape, in the order the checker lists them. */
  lemma CornerNumbers(card: seq<seq<int>>)
    requires ValidGrid(card)
    ensures NumbersAt(card, Cells(FourCorners)) == [card[0][0], card[4][0], card[0][4], card[4][4]]
  {
    WithoutFreeMembers(Positions(FourCorners));
    NumbersAtIndex(card, Positions(FourCorners));
  }

  /** `checkFourCorners`: the four corner numbers, top-left, top-right,
      bottom-left, bottom-right. */
  function CheckFourCorners(card: seq<seq<int>>, marked: seq<int>): (r: Option<Pattern>)
    requires ValidGrid(card)
    ensures r == FirstPattern(card, marked, [FourCorners])
  {
    var corners := [card[0][0], card[4][0], card[0][4], card[4][4]];
    CornerNumbers(card);
    AllMarkedMeans(corners, marked);
    if forall i :: 0 <= i < 4 ==> corners[i] in marked then
      FirstPatternAt(card, marked, [FourCorners], 0);
      Some(Pattern("four-corners", corners))
    else
      FirstPatternNone(card, marked, [FourCorners]);
      None
  }

  /** `checkFullHouse`: every non-free number is marked; reports the marked list itself. */
  method CheckFullHouse(card: seq<seq<int>>, marked: seq<int>) returns (r: Option<Pattern>)
    requires ValidGrid(card)
    ensures r == FirstPattern(card, marked, [FullHouse])
  {
    FullHouseCompleteIff(card, marked);
    FirstPatternNone(card, marked, [FullHouse]);
    for col := 0 to 5
      invariant forall c: Index, rw: Index :: c < col && Cell(c, rw) != Free ==> card[c][rw] in marked
    {
      for row := 0 to 5
        invariant forall c: Index, rw: Index :: c < col && Cell(c, rw) != Free ==> card[c][rw] in marked
        invariant forall rw: Index :: rw < row && Cell(col, rw) != Free ==> card[col][rw] in marked
      {
        if row == 2 && col == 2 {
          continue;
        }
        var num := card[col][row];
        if num !in marked {
          return None;
        }
      }
    }
    FirstPatternAt(card, marked, [FullHouse], 0);
    return Some(Pattern("full-house", marked));
  }

  /** `patterns.find(pattern => pattern !== null)`: the first non-null result. */
  function FirstFound(results: seq<Option<Pattern>>): (r: Option<Pattern>)
    ensures r.None? <==> forall i :: 0 <= i < |results| ==> results[i].None?
    ensures r.Some? ==> r in results
  {
    if results == [] then None
    else if results[0].Some? then results[0]
    else
      var r := FirstFound(results[1..]);
      assert forall i :: 1 <= i < |results| ==> results[i] == results[1..][i - 1];
      r
  }

  lemma FirstFoundFive(a: Option<Pattern>, b: Option<Pattern>, c: Option<Pattern>, d: Option<Pattern>, e: Option<Pattern>)
    ensures FirstFound([a, b, c, d, e]) ==
              if a.Some? then a else if b.Some? then b else if c.Some? then c else if d.Some? then d else e
  {
    assert [e][1..] == [];
    assert FirstFound([e]) == e;
    assert [d, e][1..] == [e];
    assert FirstFound([d, e]) == if d.Some? then d else e;
    assert [c, d, e][1..] == [d, e];
    assert FirstFound([c, d, e]) == if c.Some? then c else FirstFound([d, e]);
    assert [b, c, d, e][1..] == [c, d, e];
    assert FirstFound([b, c, d, e]) == if b.Some? then b else FirstFound([c, d, e]);
    assert [a, b, c, d, e][1..] == [b, c, d, e];
  }

  /** Taking the first non-null result of checkers over five groups of shapes
      is checking their concatenation. */
  lemma FirstPatternFive(card: seq<seq<int>>, marked: seq<int>, a: seq<Shape>, b: seq<Shape>, c: seq<Shape>,
                         d: seq<Shape>, e: seq<Shape>)
    requires ValidGrid(card)
    ensures FirstFound([FirstPattern(card, marked, a), FirstPattern(card, marked, b), FirstPattern(card, marked, c),
                        FirstPattern(card, marked, d), FirstPattern(card, marked, e)])
            == FirstPattern(card, marked, a + b + c + d + e)
  {
    FirstFoundFive(FirstPattern(card, marked, a), FirstPattern(card, marked, b), FirstPattern(card, marked, c),
                   FirstPattern(card, marked, d), FirstPattern(card, marked, e));
    FirstPatternAppend(card, marked, a, b);
    FirstPatternAppend(card, marked, a + b, c);
    FirstPatternAppend(card, marked, a + b + c, d);
    FirstPatternAppend(card, marked, a + b + c + d, e);
  }

  /** Taking the first non-null checker result, in the order `checkForBingo`
      calls the checkers, gives the first complete shape in precedence order:
      rows 1-5, columns B-O, main diagonal, anti-diagonal, four corners, full house. */
  lemma CheckOrderIsPrecedence(card: seq<seq<int>>, marked: seq<int>)
    requires ValidGrid(card)
    ensures FirstFound([FirstPattern(card, marked, RowShapes()), FirstPattern(card, marked, ColumnShapes()),
                        FirstPattern(card, marked, DiagonalShapes), FirstPattern(card, marked, [FourCorners]),
                        FirstPattern(card, marked, [FullHouse])])
            == Evaluate(card, marked)
  {
    FirstPatternFive(card, marked, RowShapes(), ColumnShapes(), DiagonalShapes, [FourCorners], [FullHouse]);
    PrecedenceGroups();
  }

  /** The precedence order is the concatenation of the five checkers' groups. */
  lemma PrecedenceGroups()
    ensures Precedence == RowShapes() + ColumnShapes() + DiagonalShapes + [FourCorners] + [FullHouse]
  {
    assert [FourCorners, FullHouse] == [FourCorners] + [FullHouse];
  }

  /** The search of `checkForBingo`: run the five checkers in order and take
      the first pattern found, which is the first complete shape in precedence order. */
  method FindWinningPattern(card: seq<seq<int>>, marked: seq<int>) returns (r: Option<Pattern>)
    requires ValidGrid(card)
    ensures r == Evaluate(card, marked)
  {
    var horizontal := CheckHorizontalLines(card, marked);
    var vertical := CheckVerticalLines(card, marked);
    var diagonal := CheckDiagonals(card, marked);
    var corners := CheckFourCorners(card, marked);
    var fullHouse := CheckFullHouse(card, marked);
    CheckOrderIsPrecedence(card, marked);
    r := FirstFound([horizontal, vertical, diagonal, corners, fullHouse]);
  }

  /** Full house is never what a check reports: a full card completes the top row first. */
  lemma FullHouseShadowedByTopLine(card: seq<seq<int>>, marked: seq<int>)
    requires ValidGrid(card)
    requires Complete(card, marked, FullHouse)
    ensures Evaluate(card, marked) == Some(PatternOf(card, marked, Row(0)))
  {
    FullHouseCompleteIff(card, marked);
    CompleteIffMarkedExceptCentre(card, marked, Row(0));
    assert Precedence[0] == Row(0);
    FirstPatternAt(card, marked, Precedence, 0);
  }

  // ---------------------------------------------------------------------------
  // `formatPattern`.

  /** The display label of each pattern name. */
  const PatternLabels: map<string, string> := map[
    "horizontal-line-1" := "Top Line",
    "horizontal-line-2" := "Second Line",
    "horizontal-line-3" := "Third Line",
    "horizontal-line-4" := "Fourth Line",
    "horizontal-line-5" := "Bottom Line",
    "vertical-line-B" := "B Column",
    "vertical-line-I" := "I Column",
    "vertical-line-N" := "N Column",
    "vertical-line-G" := "G Column",
    "vertical-line-O" := "O Column",
    "diagonal-main" := "Diagonal \U{2198}\U{FE0F}",
    "diagonal-anti" := "Diagonal \U{2199}\U{FE0F}",
    "four-corners" := "Four Corners",
    "full-house" := "Full House"
  ]

  /** `formatPattern`: the label of a known name, the name itself otherwise
      (every label is non-empty, so `|| pattern` only applies to unknown names). */
  function FormatPattern(pattern: string): (text: string)
    ensures pattern in PatternLabels ==> text == PatternLabels[pattern] && text != ""
    ensures pattern !in PatternLabels ==> text == pattern
  {
    if pattern in PatternLabels then PatternLabels[pattern] else pattern
  }

  /** Every name a checker can report has a label distinct from the name. */
  lemma EveryReportedNameHasLabel(card: seq<seq<int>>, marked: seq<int>, s: Shape)
    requires ValidGrid(card)
    ensures PatternOf(card, marked, s).pattern in PatternLabels
    ensures FormatPattern(PatternOf(card, marked, s).pattern) != PatternOf(card, marked, s).pattern
  {
  }
}
