/** Deterministic bingo card generation: the seeded `generateBingoNumber` and
    `generateBingoCard` of the game manager.

    A card is column-major, `card[col][row]`; column `col` draws from the
    letter range of `Letters[col]`. The source's float expression
    `Math.floor((random / 233280) * width)` is modelled as the integer
    quotient `(random * width) / 233280`. */
module CardGenerator {
  import opened Wrappers

  /** The column letters in column order. */
  const Letters: seq<string> := ["B", "I", "N", "G", "O"]

  /** Parameters of the linear-congruential recurrence. */
  const Multiplier: int := 9301
  const Increment: int := 49297
  const Modulus: int := 233280

  /** One letter's inclusive number range. */
  datatype Range = Range(min: int, max: int)

  /** The range of column `col`: B 1-15, I 16-30, N 31-45, G 46-60, O 61-75. */
  function ColumnRange(col: nat): Range
  {
    Range(15 * col + 1, 15 * col + 15)
  }

  /** The `ranges` table: a range for each of the five letters, nothing for any other string. */
  function LetterRange(letter: string): (r: Option<Range>)
    ensures r.Some? <==> letter in Letters
    ensures forall col :: 0 <= col < 5 && letter == Letters[col] ==> r == Some(ColumnRange(col))
  {
    if letter == "B" then Some(Range(1, 15))
    else if letter == "I" then Some(Range(16, 30))
    else if letter == "N" then Some(Range(31, 45))
    else if letter == "G" then Some(Range(46, 60))
    else if letter == "O" then Some(Range(61, 75))
    else None
  }

  /** JavaScript's `%` on integers: the remainder takes the sign of the dividend. */
  function JsRem(a: int, b: int): (r: int)
    requires b > 0
    ensures a >= 0 ==> r == a % b
    ensures a < 0 ==> -b < r <= 0
  {
    if a >= 0 then a % b else -((-a) % b)
  }

  /** The truncating remainder is odd in the dividend: with the clause for a
      non-negative dividend this fixes its value for a negative one. */
  lemma JsRemOdd(a: int, b: int)
    requires b > 0
    ensures JsRem(a, b) == -JsRem(-a, b)
  {
  }

  /** The recurrence `(seed * 9301 + 49297) % 233280`. */
  function SeededRandom(seed: int): int
  {
    JsRem(seed * Multiplier + Increment, Modulus)
  }

  /** `generateBingoNumber(letter, seed)`. An unknown letter yields 0. A seed of 0
      is falsy, so the source draws from `Math.random` instead; that draw is not
      modelled and is `None` here. Every other seed is deterministic, and for
      seeds from -5 up (where the recurrence's operand is not negative) the
      number lies in the letter's range. */
  function GenerateBingoNumber(letter: string, seed: int): (r: Option<int>)
    ensures letter !in Letters ==> r == Some(0)
    ensures letter in Letters ==> (r.Some? <==> seed != 0)
    ensures LetterRange(letter).Some? && seed != 0 && seed >= -5 ==>
              LetterRange(letter).value.min <= r.value <= LetterRange(letter).value.max
  {
    match LetterRange(letter)
    case None => Some(0)
    case Some(range) =>
      if seed == 0 then None
      else Some(SeededRandom(seed) * (range.max - range.min + 1) / Modulus + range.min)
  }

  /** The draws at seed offsets 0, 1, ..., n - 1. */
  function Attempts(cardNumber: int, col: nat, n: nat): (s: seq<int>)
    requires cardNumber >= 1 && col < 5
    ensures |s| == n
    ensures forall k :: 0 <= k < n ==> s[k] == Draw(cardNumber, col, k)
  {
    seq(n, k requires 0 <= k < n => Draw(cardNumber, col, k))
  }

  lemma AttemptsSnoc(cardNumber: int, col: nat, n: nat)
    requires cardNumber >= 1 && col < 5
    ensures Attempts(cardNumber, col, n + 1) == Attempts(cardNumber, col, n) + [Draw(cardNumber, col, n)]
  {
  }

  predicate Distinct(s: seq<int>)
  {
    forall i, j :: 0 <= i < j < |s| ==> s[i] != s[j]
  }

  lemma DistinctSnoc(s: seq<int>, x: int)
    requires Distinct(s) && x !in s
    ensures Distinct(s + [x])
  {
  }

  predicate Ascending(s: seq<int>)
  {
    forall i, j :: 0 <= i < j < |s| ==> s[i] <= s[j]
  }

  predicate StrictlyAscending(s: seq<int>)
  {
    forall i, j :: 0 <= i < j < |s| ==> s[i] < s[j]
  }

  /** A column as a finished card shows it: five distinct numbers of the
      column's range, in ascending order. */
  predicate ColumnOk(column: seq<int>, col: nat)
  {
    && |column| == 5
    && StrictlyAscending(column)
    && forall i :: 0 <= i < 5 ==> ColumnRange(col).min <= column[i] <= ColumnRange(col).max
  }

  predicate WellFormedCard(card: seq<seq<int>>)
  {
    |card| == 5 && forall col :: 0 <= col < 5 ==> ColumnOk(card[col], col)
  }

  // ---------------------------------------------------------------------------
  // Sorting: `column.sort((a, b) => a - b)`, numeric ascending order.

  function Insert(x: int, s: seq<int>): (r: seq<int>)
    ensures |r| == |s| + 1
    ensures multiset(r) == multiset(s) + multiset{x}
  {
    if s == [] || x <= s[0] then [x] + s
    else
      assert s == [s[0]] + s[1..];
      [s[0]] + Insert(x, s[1..])
  }

  /** Putting a number no larger than any element in front keeps the order;
      putting one smaller than every element in front keeps it strict. */
  lemma PrependKeepsOrder(x: int, s: seq<int>)
    requires Ascending(s) && forall y :: y in s ==> x <= y
    ensures Ascending([x] + s)
    ensures StrictlyAscending(s) && (forall y :: y in s ==> x < y) ==> StrictlyAscending([x] + s)
  {
    var r := [x] + s;
    forall i, j | 0 <= i < j < |r| ensures r[i] <= r[j] && (StrictlyAscending(s) && (forall y :: y in s ==> x < y) ==> r[i] < r[j]) {
      assert r[j] == s[j - 1] && s[j - 1] in s;
      if i > 0 {
        assert r[i] == s[i - 1];
      }
    }
  }

  /** The head of an ascending sequence is below its tail, and the tail is ascending. */
  lemma HeadIsLeast(s: seq<int>)
    requires Ascending(s) && s != []
    ensures forall y :: y in s[1..] ==> s[0] <= y
    ensures StrictlyAscending(s) ==> forall y :: y in s[1..] ==> s[0] < y
    ensures Ascending(s[1..])
    ensures StrictlyAscending(s) ==> StrictlyAscending(s[1..])
  {
    forall y | y in s[1..] ensures s[0] <= y && (StrictlyAscending(s) ==> s[0] < y) {
      var k :| 0 <= k < |s| - 1 && s[1..][k] == y;
      assert y == s[k + 1];
    }
  }

  lemma InsertMembers(x: int, s: seq<int>)
    ensures forall y :: y in Insert(x, s) <==> y == x || y in s
  {
    var r := Insert(x, s);
    forall y ensures y in r <==> y == x || y in s {
      assert y in r <==> y in multiset(r);
      assert y in s <==> y in multiset(s);
    }
  }

  lemma {:induction false} InsertKeepsOrder(x: int, s: seq<int>)
    requires Ascending(s)
    ensures Ascending(Insert(x, s))
    ensures StrictlyAscending(s) && x !in s ==> StrictlyAscending(Insert(x, s))
  {
    if s == [] {
      assert Insert(x, s) == [x] + s;
      PrependKeepsOrder(x, s);
    } else if x <= s[0] {
      HeadIsLeast(s);
      assert Insert(x, s) == [x] + s;
      assert forall y :: y in s ==> y == s[0] || y in s[1..];
      PrependKeepsOrder(x, s);
    } else {
      HeadIsLeast(s);
      InsertKeepsOrder(x, s[1..]);
      InsertMembers(x, s[1..]);
      assert Insert(x, s) == [s[0]] + Insert(x, s[1..]);
      PrependKeepsOrder(s[0], Insert(x, s[1..]));
    }
  }

  /** The ascending rearrangement of `s`; strictly ascending when `s` holds no repeats. */
  function Sort(s: seq<int>): (r: seq<int>)
    ensures |r| == |s|
    ensures multiset(r) == multiset(s)
  {
    if s == [] then []
    else
      assert s == [s[0]] + s[1..];
      Insert(s[0], Sort(s[1..]))
  }

  lemma {:induction false} SortOrders(s: seq<int>)
    ensures Ascending(Sort(s))
    ensures Distinct(s) ==> StrictlyAscending(Sort(s))
  {
    if s != [] {
      SortOrders(s[1..]);
      var t := Sort(s[1..]);
      if Distinct(s) {
        assert Distinct(s[1..]);
        assert s[0] !in t by {
          forall i | 0 <= i < |s| - 1 ensures s[1..][i] != s[0] {
            assert s[1..][i] == s[i + 1];
          }
          assert s[0] !in multiset(s[1..]);
        }
      }
      InsertKeepsOrder(s[0], t);
    }
  }

  // ---------------------------------------------------------------------------
  // The bucket arithmetic behind the recurrence. With `v = seed * 9301 + 49297`,
  // the number drawn is `min + (v / 15552) % 15` (233280 = 15 * 15552), so it is
  // fixed by `Level(seed) = v / 15552`, and one step of the seed raises the
  // level by 9301 / 15552, a little under 0.6.

  function Level(seed: int): int
  {
    (seed * Multiplier + Increment) / 15552
  }

  /** The number drawn for column `col` of card `cardNumber` at seed offset `k`
      (seed `cardNumber + col + k`), in terms of the level; `DrawIsGenerated`
      shows it is what `generateBingoNumber` returns. */
  function Draw(cardNumber: int, col: nat, k: nat): (n: int)
    requires cardNumber >= 1 && col < 5
    ensures ColumnRange(col).min <= n <= ColumnRange(col).max
  {
    ColumnRange(col).min + Level(cardNumber + col + k) % 15
  }

  lemma BucketIsLevelModFifteen(v: int)
    requires v >= 0
    ensures (v % Modulus) * 15 / Modulus == (v / 15552) % 15
  {
    var q, r := v / Modulus, v % Modulus;
    var a, b := r / 15552, r % 15552;
    assert r == 15552 * a + b && 0 <= a < 15;
    assert r * 15 == Modulus * a + 15 * b;
    assert v == 15552 * (15 * q + a) + b;
  }

  lemma DrawIsGenerated(cardNumber: int, col: nat, k: nat)
    requires cardNumber >= 1 && col < 5
    ensures GenerateBingoNumber(Letters[col], cardNumber + col + k) == Some(Draw(cardNumber, col, k))
  {
    var seed := cardNumber + col + k;
    BucketIsLevelModFifteen(seed * Multiplier + Increment);
  }

  /** Levels are monotone in the seed, grow by at most one per step, by at
      most two over three steps, and by between four and five over seven. */
  lemma LevelGrowth(s: int, t: int)
    requires s <= t
    ensures Level(s) <= Level(t)
    ensures t == s + 1 ==> Level(t) <= Level(s) + 1
    ensures t == s + 3 ==> Level(t) <= Level(s) + 2
    ensures t <= s + 7 ==> Level(t) <= Level(s) + 5
    ensures t == s + 7 ==> Level(s) + 4 <= Level(t)
  {
    var v, w := s * Multiplier + Increment, t * Multiplier + Increment;
    assert w - v == (t - s) * Multiplier;
  }

  /** One step of the seed leaves the level where it is or raises it by one. */
  lemma LevelStepCases(t: int)
    ensures Level(t + 1) == Level(t) || Level(t + 1) == Level(t) + 1
  {
    LevelGrowth(t, t + 1);
  }

  // ---------------------------------------------------------------------------
  // The column loop as written. Each iteration draws with the seed
  // cardNumber + col + |column| and appends the number only when it is new.
  // The seed depends only on `column.length`, so a rejected duplicate leaves
  // the loop in the state it started the iteration in.

  /** The column after at most `fuel` iterations of the source's loop, started from `column`. */
  function RunColumn(cardNumber: int, col: nat, column: seq<int>, fuel: nat): (r: seq<int>)
    requires cardNumber >= 1 && col < 5
    decreases fuel
  {
    if fuel == 0 || |column| >= 5 then column
    else
      var n := Draw(cardNumber, col, |column|);
      RunColumn(cardNumber, col, if n in column then column else column + [n], fuel - 1)
  }

  /** The source's loop for column `col` exits after finitely many iterations. */
  ghost predicate ColumnLoopExits(cardNumber: int, col: nat)
    requires cardNumber >= 1 && col < 5
  {
    exists fuel: nat :: |RunColumn(cardNumber, col, [], fuel)| >= 5
  }

  /** While the first five draws are distinct, the loop takes them in order.
      For card numbers from 1 up this hypothesis never holds
      (`SeededColumnRepeats`): the lemma describes a path the source cannot
      reach, and serves only the exit direction of `ColumnLoopExitsIff`. */
  lemma {:induction false} RunColumnTakesDistinctDraws(cardNumber: int, col: nat, j: nat)
    requires cardNumber >= 1 && col < 5 && j <= 5
    requires Distinct(Attempts(cardNumber, col, 5))
    ensures RunColumn(cardNumber, col, Attempts(cardNumber, col, j), 5 - j) == Attempts(cardNumber, col, 5)
    decreases 5 - j
  {
    var a := Attempts(cardNumber, col, 5);
    var column := Attempts(cardNumber, col, j);
    if j < 5 {
      var n := Draw(cardNumber, col, j);
      assert n !in column by {
        forall i | 0 <= i < j ensures column[i] != n {
          assert column[i] == a[i] && n == a[j];
        }
      }
      assert column + [n] == Attempts(cardNumber, col, j + 1);
      RunColumnTakesDistinctDraws(cardNumber, col, j + 1);
    } else {
      assert column == a;
    }
  }

  /** Once the draw at offset `m` repeats an earlier one, the loop never gets past `m` numbers. */
  lemma {:induction false} RunColumnStalls(cardNumber: int, col: nat, m: nat, j: nat, fuel: nat)
    requires cardNumber >= 1 && col < 5 && j <= m < 5
    requires Distinct(Attempts(cardNumber, col, m))
    requires Draw(cardNumber, col, m) in Attempts(cardNumber, col, m)
    ensures RunColumn(cardNumber, col, Attempts(cardNumber, col, j), fuel)
              == Attempts(cardNumber, col, if j + fuel < m then j + fuel else m)
    decreases fuel
  {
    var column := Attempts(cardNumber, col, j);
    if fuel > 0 {
      var n := Draw(cardNumber, col, j);
      if j < m {
        var a := Attempts(cardNumber, col, m);
        assert n !in column by {
          forall i | 0 <= i < j ensures column[i] != n {
            assert column[i] == a[i] && n == a[j];
          }
        }
        assert column + [n] == Attempts(cardNumber, col, j + 1);
        RunColumnStalls(cardNumber, col, m, j + 1, fuel - 1);
      } else {
        RunColumnStalls(cardNumber, col, m, j, fuel - 1);
      }
    }
  }

  /** The source's loop for a column exits iff the five consecutive seeds
      `cardNumber + col + 0 .. 4` give five distinct numbers; otherwise it never exits. */
  lemma ColumnLoopExitsIff(cardNumber: int, col: nat)
    requires cardNumber >= 1 && col < 5
    ensures ColumnLoopExits(cardNumber, col) <==> Distinct(Attempts(cardNumber, col, 5))
  {
    var a := Attempts(cardNumber, col, 5);
    assert Attempts(cardNumber, col, 0) == [];
    if Distinct(a) {
      RunColumnTakesDistinctDraws(cardNumber, col, 0);
      assert |RunColumn(cardNumber, col, [], 5)| >= 5;
    } else {
      // m: the first offset whose draw repeats an earlier one.
      var m :| 0 < m < 5 && a[m] in a[..m] && Distinct(a[..m]) by {
        FirstRepeat(a);
      }
      assert a[..m] == Attempts(cardNumber, col, m);
      forall fuel: nat ensures |RunColumn(cardNumber, col, [], fuel)| < 5 {
        RunColumnStalls(cardNumber, col, m, 0, fuel);
      }
    }
  }

  /** A sequence with a repeat has a first element that repeats an earlier one. */
  lemma {:induction false} FirstRepeat(a: seq<int>)
    requires !Distinct(a)
    ensures exists m :: 0 < m < |a| && a[m] in a[..m] && Distinct(a[..m])
  {
    var init := a[..|a| - 1];
    if Distinct(init) {
      var m := |a| - 1;
      assert a[..m] == init;
      var i, j :| 0 <= i < j < |a| && a[i] == a[j];
      assert j == m;
      assert a[m] in a[..m];
    } else {
      FirstRepeat(init);
      var m :| 0 < m < |init| && init[m] in init[..m] && Distinct(init[..m]);
      assert init[..m] == a[..m];
    }
  }

  /** For every card number the source can pass, two of the five consecutive
      seeds of every column give the same number: three seed steps raise the
      level by at most two, so one of the three steps leaves it unchanged. */
  lemma SeededColumnRepeats(cardNumber: int, col: nat)
    requires cardNumber >= 1 && col < 5
    ensures !Distinct(Attempts(cardNumber, col, 5))
  {
    var s := cardNumber + col;
    LevelStalls(s);
    var k := if Level(s + 1) == Level(s) then 0 else if Level(s + 2) == Level(s + 1) then 1 else 2;
    var a := Attempts(cardNumber, col, 5);
    assert a[k] == a[k + 1];
  }

  /** Among three consecutive seed steps, one leaves the level unchanged. */
  lemma LevelStalls(s: int)
    ensures Level(s + 1) == Level(s) || Level(s + 2) == Level(s + 1) || Level(s + 3) == Level(s + 2)
  {
    LevelGrowth(s, s + 1);
    LevelGrowth(s + 1, s + 2);
    LevelGrowth(s + 2, s + 3);
    LevelGrowth(s, s + 3);
  }

  /** Hence the source's column loop never exits, for any card number from 1 up. */
  lemma ColumnLoopNeverExits(cardNumber: int, col: nat)
    requires cardNumber >= 1 && col < 5
    ensures !ColumnLoopExits(cardNumber, col)
  {
    SeededColumnRepeats(cardNumber, col);
    ColumnLoopExitsIff(cardNumber, col);
  }

  /** Card 1, column B: seeds 1, 2, 3 give 4, 5, 5. */
  lemma CardOneColumnB()
    ensures Attempts(1, 0, 3) == [4, 5, 5]
  {
    assert Draw(1, 0, 0) == 4 && Draw(1, 0, 1) == 5 && Draw(1, 0, 2) == 5;
  }

  /** The outcome of `generateBingoCard` as written: the grid when every column
      loop exits, otherwise the first column whose loop spins forever. */
  datatype Generation = Generated(grid: seq<seq<int>>) | Diverges(col: nat)

  /** Column `col` of the card as written, when its loop exits: the first five
      draws, sorted. */
  function AsWrittenColumn(cardNumber: int, col: nat): seq<int>
    requires cardNumber >= 1 && col < 5
  {
    Sort(Attempts(cardNumber, col, 5))
  }

  /** The `while` loop of `generateBingoCard` for one column, as written. It
      reports `exits == false` at the first rejected duplicate: from there the
      source's loop repeats the same draw forever. The exiting outcome, holding
      the first five draws, is dead code for card numbers from 1 up
      (`ColumnLoopNeverExits`); it is kept to state what the loop would do. */
  method ColumnLoop(cardNumber: int, col: nat) returns (column: seq<int>, exits: bool)
    requires cardNumber >= 1 && col < 5
    ensures exits <==> ColumnLoopExits(cardNumber, col)
    ensures exits ==> column == Attempts(cardNumber, col, 5)
  {
    column := [];
    while |column| < 5
      invariant |column| <= 5
      invariant column == Attempts(cardNumber, col, |column|)
      invariant Distinct(column)
    {
      var number := GenerateBingoNumber(Letters[col], cardNumber + col + |column|).value;
      DrawIsGenerated(cardNumber, col, |column|);
      AttemptsSnoc(cardNumber, col, |column|);
      if number in column {
        var a := Attempts(cardNumber, col, 5);
        var i :| 0 <= i < |column| && column[i] == number;
        assert a[i] == a[|column|];
        ColumnLoopExitsIff(cardNumber, col);
        return column, false;
      }
      DistinctSnoc(column, number);
      column := column + [number];
    }
    ColumnLoopExitsIff(cardNumber, col);
    exits := true;
  }

  /** `generateBingoCard(cardNumber)` as written: each column's loop, then the
      column sorted ascending; `Diverges` names the first column whose loop
      never exits. By `ColumnLoopNeverExits` the result is always
      `Diverges(0)`; the `Generated` branch is unreachable and is kept only to
      state what the code would return. */
  method GenerateBingoCard(cardNumber: int) returns (r: Generation)
    requires cardNumber >= 1
    ensures r.Generated? <==> forall col :: 0 <= col < 5 ==> ColumnLoopExits(cardNumber, col)
    ensures r.Generated? ==>
              |r.grid| == 5 && forall col :: 0 <= col < 5 ==> r.grid[col] == AsWrittenColumn(cardNumber, col)
    ensures r.Diverges? ==>
              r.col < 5 && !ColumnLoopExits(cardNumber, r.col)
              && forall col :: 0 <= col < r.col ==> ColumnLoopExits(cardNumber, col)
  {
    var card: seq<seq<int>> := [];
    for col := 0 to 5
      invariant |card| == col
      invariant forall c :: 0 <= c < col ==> ColumnLoopExits(cardNumber, c)
      invariant forall c :: 0 <= c < col ==> card[c] == AsWrittenColumn(cardNumber, c)
    {
      var column, exits := ColumnLoop(cardNumber, col);
      if !exits {
        return Diverges(col);
      }
      card := card + [Sort(column)];
    }
    return Generated(card);
  }

  // ---------------------------------------------------------------------------
  // The corrected generator: the seed advances on every attempt,
  // `cardNumber + col + attempt`, duplicates included.

  /** The distinct elements of `s` in order of first occurrence. */
  function Dedup(s: seq<int>): (r: seq<int>)
    ensures Distinct(r)
    ensures forall x :: x in r <==> x in s
    ensures |r| <= |s|
  {
    if s == [] then []
    else
      var d := Dedup(s[..|s| - 1]);
      assert s == s[..|s| - 1] + [s[|s| - 1]];
      if s[|s| - 1] in d then d else d + [s[|s| - 1]]
  }

  lemma DedupSnoc(s: seq<int>, x: int)
    ensures Dedup(s + [x]) == if x in s then Dedup(s) else Dedup(s) + [x]
  {
    assert (s + [x])[..|s + [x]| - 1] == s;
  }

  /** Deduplicating a prefix gives a prefix of the deduplicated whole. */
  lemma {:induction false} DedupPrefix(s: seq<int>, i: nat)
    requires i <= |s|
    ensures |Dedup(s[..i])| <= |Dedup(s)|
    ensures Dedup(s[..i]) == Dedup(s)[..|Dedup(s[..i])|]
    decreases |s|
  {
    if i == |s| {
      assert s[..i] == s;
    } else {
      var t := s[..|s| - 1];
      assert s == t + [s[|s| - 1]];
      assert t[..i] == s[..i];
      DedupPrefix(t, i);
      DedupSnoc(t, s[|s| - 1]);
    }
  }

  /** Levels at most five apart that differ leave different remainders mod 15. */
  lemma LevelsApart(x: int, y: int)
    requires x < y <= x + 5
    ensures x % 15 != y % 15
  {
  }

  /** A draw whose level is above every earlier one (and at most five above the
      first) is new. */
  lemma {:induction false} FreshDraw(cardNumber: int, col: nat, a: nat)
    requires cardNumber >= 1 && col < 5 && 1 <= a <= 7
    requires Level(cardNumber + col + a) == Level(cardNumber + col + a - 1) + 1
    ensures Draw(cardNumber, col, a) !in Attempts(cardNumber, col, a)
  {
    var s := cardNumber + col;
    var prev := Attempts(cardNumber, col, a);
    forall k | 0 <= k < a ensures prev[k] != Draw(cardNumber, col, a) {
      LevelRiseSince(s, k, a);
      LevelsApart(Level(s + k), Level(s + a));
    }
  }

  /** When the level rises at step `a` (at most 7), it is above the level of
      every earlier step `k`, by at most five. */
  lemma LevelRiseSince(s: int, k: nat, a: nat)
    requires k < a <= 7
    requires Level(s + a) == Level(s + a - 1) + 1
    ensures Level(s + k) < Level(s + a) <= Level(s + k) + 5
  {
    LevelGrowth(s + k, s + a - 1);
    LevelGrowth(s + k, s + a);
  }

  /** A draw on the same level as the one before it repeats that draw. */
  lemma RepeatedDraw(cardNumber: int, col: nat, a: nat)
    requires cardNumber >= 1 && col < 5 && 1 <= a
    requires Level(cardNumber + col + a) == Level(cardNumber + col + a - 1)
    ensures Draw(cardNumber, col, a) in Attempts(cardNumber, col, a)
  {
    assert Attempts(cardNumber, col, a)[a - 1] == Draw(cardNumber, col, a);
  }

  /** One more attempt adds a distinct draw exactly when the level rises. */
  lemma DedupStep(cardNumber: int, col: nat, a: nat)
    requires cardNumber >= 1 && col < 5 && 1 <= a <= 7
    ensures |Dedup(Attempts(cardNumber, col, a + 1))| ==
              |Dedup(Attempts(cardNumber, col, a))| + Level(cardNumber + col + a) - Level(cardNumber + col + a - 1)
  {
    AttemptsSnoc(cardNumber, col, a);
    DedupSnoc(Attempts(cardNumber, col, a), Draw(cardNumber, col, a));
    LevelStepCases(cardNumber + col + a - 1);
    if Level(cardNumber + col + a) == Level(cardNumber + col + a - 1) {
      RepeatedDraw(cardNumber, col, a);
    } else {
      FreshDraw(cardNumber, col, a);
    }
  }

  /** After `a` attempts (up to eight) the distinct draws number one more than
      the rise of the level. */
  lemma {:induction false} DedupLength(cardNumber: int, col: nat, a: nat)
    requires cardNumber >= 1 && col < 5 && 1 <= a <= 8
    ensures |Dedup(Attempts(cardNumber, col, a))| == Level(cardNumber + col + a - 1) - Level(cardNumber + col) + 1
  {
    if a == 1 {
      assert Attempts(cardNumber, col, 1) == [] + [Draw(cardNumber, col, 0)];
      DedupSnoc([], Draw(cardNumber, col, 0));
    } else {
      DedupLength(cardNumber, col, a - 1);
      DedupStep(cardNumber, col, a - 1);
    }
  }

  lemma DedupCoversFive(cardNumber: int, col: nat)
    requires cardNumber >= 1 && col < 5
    ensures |Dedup(Attempts(cardNumber, col, 8))| >= 5
  {
    DedupLength(cardNumber, col, 8);
    LevelGrowth(cardNumber + col, cardNumber + col + 7);
  }

  /** The first five distinct draws of column `col`, in the order drawn. */
  function FirstFiveDistinct(cardNumber: int, col: nat): seq<int>
    requires cardNumber >= 1 && col < 5
  {
    DedupCoversFive(cardNumber, col);
    Dedup(Attempts(cardNumber, col, 8))[..5]
  }

  /** Column `col` of the corrected card: the first five distinct draws, sorted. */
  function CorrectedColumn(cardNumber: int, col: nat): seq<int>
    requires cardNumber >= 1 && col < 5
  {
    Sort(FirstFiveDistinct(cardNumber, col))
  }

  function CorrectedCard(cardNumber: int): seq<seq<int>>
    requires cardNumber >= 1
  {
    seq(5, col requires 0 <= col < 5 => CorrectedColumn(cardNumber, col))
  }

  lemma CorrectedColumnOk(cardNumber: int, col: nat)
    requires cardNumber >= 1 && col < 5
    ensures ColumnOk(CorrectedColumn(cardNumber, col), col)
  {
    DedupCoversFive(cardNumber, col);
    var draws := Attempts(cardNumber, col, 8);
    var d := Dedup(draws);
    var five := d[..5];
    assert Distinct(five) by {
      forall i, j | 0 <= i < j < 5 ensures five[i] != five[j] {
        assert five[i] == d[i] && five[j] == d[j];
      }
    }
    SortOrders(five);
    var column := Sort(five);
    forall i | 0 <= i < 5
      ensures ColumnRange(col).min <= column[i] <= ColumnRange(col).max
    {
      assert column[i] in multiset(five);
      assert column[i] in d;
      assert column[i] in draws;
      var k :| 0 <= k < 8 && draws[k] == column[i];
      assert column[i] == Draw(cardNumber, col, k);
    }
  }

  /** Every corrected card is well formed. */
  lemma CorrectedCardWellFormed(cardNumber: int)
    requires cardNumber >= 1
    ensures WellFormedCard(CorrectedCard(cardNumber))
  {
    forall col | 0 <= col < 5 ensures ColumnOk(CorrectedCard(cardNumber)[col], col) {
      CorrectedColumnOk(cardNumber, col);
    }
  }

  /** The first `m` of `n` attempts are the first `m` attempts. */
  lemma AttemptsPrefix(cardNumber: int, col: nat, m: nat, n: nat)
    requires cardNumber >= 1 && col < 5 && m <= n
    ensures Attempts(cardNumber, col, n)[..m] == Attempts(cardNumber, col, m)
  {
  }

  /** One more attempt keeps its draw exactly when the draw is new. */
  lemma DedupAttemptsSnoc(cardNumber: int, col: nat, a: nat)
    requires cardNumber >= 1 && col < 5
    ensures Dedup(Attempts(cardNumber, col, a + 1))
              == if Draw(cardNumber, col, a) in Dedup(Attempts(cardNumber, col, a))
                 then Dedup(Attempts(cardNumber, col, a))
                 else Dedup(Attempts(cardNumber, col, a)) + [Draw(cardNumber, col, a)]
  {
    AttemptsSnoc(cardNumber, col, a);
    DedupSnoc(Attempts(cardNumber, col, a), Draw(cardNumber, col, a));
  }

  /** Once `a` attempts hold five distinct draws, they are the first five of
      the eight-attempt column. */
  lemma FiveAfterAttempts(cardNumber: int, col: nat, a: nat)
    requires cardNumber >= 1 && col < 5 && a <= 8
    requires |Dedup(Attempts(cardNumber, col, a))| == 5
    ensures Dedup(Attempts(cardNumber, col, a)) == FirstFiveDistinct(cardNumber, col)
  {
    AttemptsPrefix(cardNumber, col, a, 8);
    DedupPrefix(Attempts(cardNumber, col, 8), a);
  }

  /** A grid whose columns are the corrected columns is the corrected card. */
  lemma CorrectedCardColumns(cardNumber: int, card: seq<seq<int>>)
    requires cardNumber >= 1
    requires |card| == 5 && forall c :: 0 <= c < 5 ==> card[c] == CorrectedColumn(cardNumber, c)
    ensures card == CorrectedCard(cardNumber)
    ensures WellFormedCard(card)
  {
    CorrectedCardWellFormed(cardNumber);
  }

  /** One column of the corrected generator: draw with seed
      `cardNumber + col + attempt`, keep new numbers, stop at five. The loop
      finishes within eight attempts. */
  method CorrectedColumnLoop(cardNumber: int, col: nat) returns (column: seq<int>)
    requires cardNumber >= 1 && col < 5
    ensures column == FirstFiveDistinct(cardNumber, col)
  {
    DedupCoversFive(cardNumber, col);
    column := [];
    var attempt := 0;
    while |column| < 5
      invariant 0 <= attempt <= 8
      invariant column == Dedup(Attempts(cardNumber, col, attempt))
      invariant |column| <= 5
      decreases 8 - attempt
    {
      if attempt == 8 {
        assert false;
      }
      var number := GenerateBingoNumber(Letters[col], cardNumber + col + attempt).value;
      DrawIsGenerated(cardNumber, col, attempt);
      DedupAttemptsSnoc(cardNumber, col, attempt);
      if number !in column {
        column := column + [number];
      }
      attempt := attempt + 1;
    }
    FiveAfterAttempts(cardNumber, col, attempt);
  }

  /** One column of the corrected card: the corrected loop, then the numeric sort. */
  method CorrectedSortedColumn(cardNumber: int, col: nat) returns (column: seq<int>)
    requires cardNumber >= 1 && col < 5
    ensures column == CorrectedColumn(cardNumber, col)
  {
    var drawn := CorrectedColumnLoop(cardNumber, col);
    column := Sort(drawn);
  }

  /** `generateBingoCard` with the seed advancing on every attempt: five
      distinct in-range numbers per column, sorted, and the same grid for the
      same card number. */
  method GenerateBingoCardCorrected(cardNumber: int) returns (card: seq<seq<int>>)
    requires cardNumber >= 1
    ensures card == CorrectedCard(cardNumber)
    ensures WellFormedCard(card)
  {
    card := [];
    for col := 0 to 5
      invariant |card| == col
      invariant forall c :: 0 <= c < col ==> card[c] == CorrectedColumn(cardNumber, c)
    {
      var column := CorrectedSortedColumn(cardNumber, col);
      card := card + [column];
    }
    CorrectedCardColumns(cardNumber, card);
  }
}
