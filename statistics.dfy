/** calculate_area_statistics of main.py: how much of the classified grid
    falls in each Bortle class, as a percentage for every class 1..9. */
module Statistics {

  /** One (value, count) pair of `dict(zip(unique, counts))`. */
  datatype Entry = Entry(level: int, count: nat)

  /** The report the loop over levels 1..9 produces, one percentage per level;
      an empty grid makes `total_pixels` zero and the first division fails. */
  datatype Report = Percentages(byLevel: seq<real>) | DivisionByZero

  /** How many cells of the grid hold value v. */
  function Count(grid: seq<int>, v: int): (n: nat)
    ensures n <= |grid|
    ensures n == 0 <==> v !in grid
  {
    if grid == [] then 0
    else (if grid[0] == v then 1 else 0) + Count(grid[1..], v)
  }

  /** The levels of a count table, in order; np.unique sorts them ascending. */
  predicate LevelsAscending(stats: seq<Entry>) {
    forall i, j :: 0 <= i < j < |stats| ==> stats[i].level < stats[j].level
  }

  function Levels(stats: seq<Entry>): set<int> {
    set e | e in stats :: e.level
  }

  predicate PositiveCounts(stats: seq<Entry>) {
    forall i :: 0 <= i < |stats| ==> stats[i].count > 0
  }

  /** Adds one occurrence of v to an ascending count table. */
  function Insert(stats: seq<Entry>, v: int): (r: seq<Entry>)
    requires LevelsAscending(stats)
    ensures LevelsAscending(r)
    ensures r != [] && (r[0].level == v || (stats != [] && r[0].level == stats[0].level))
  {
    if stats == [] then [Entry(v, 1)]
    else if stats[0].level == v then [Entry(v, stats[0].count + 1)] + stats[1..]
    else if v < stats[0].level then [Entry(v, 1)] + stats
    else [stats[0]] + Insert(stats[1..], v)
  }

  /** `np.unique(bortle_map, return_counts=True)` zipped into a table: the
      distinct values of the grid in ascending order, each with a positive
      count. */
  function Tally(grid: seq<int>): (stats: seq<Entry>)
    ensures LevelsAscending(stats)
  {
    if grid == [] then []
    else Insert(Tally(grid[1..]), grid[0])
  }

  /** `stats.get(level, 0)`: the count the table holds for level, 0 when it
      holds none (`LookupFinds`, `LookupAbsent`); never more than the sum of
      all counts. */
  function Lookup(stats: seq<Entry>, level: int): (n: nat)
    ensures n <= Total(stats)
  {
    if stats == [] then 0
    else if stats[0].level == level then stats[0].count
    else Lookup(stats[1..], level)
  }

  /** `sum(counts)`: a table with positive counts sums to at least its
      number of entries. */
  function Total(stats: seq<Entry>): (n: nat)
    ensures PositiveCounts(stats) ==> n >= |stats|
  {
    if stats == [] then 0 else stats[0].count + Total(stats[1..])
  }

  /** `(count / total_pixels) * 100`. */
  function Percentage(count: nat, total: nat): (p: real)
    requires total > 0
    ensures count <= total ==> 0.0 <= p <= 100.0
    ensures p == 0.0 <==> count == 0
    ensures count == total ==> p == 100.0
  {
    (count as real / total as real) * 100.0
  }

  /** The percentages of n consecutive levels starting at lo. */
  function PercentRow(grid: seq<int>, lo: int, n: nat): (row: seq<real>)
    requires |grid| > 0
    decreases n
    ensures |row| == n
    ensures forall k :: 0 <= k < n ==> row[k] == Percentage(Count(grid, lo + k), |grid|)
  {
    if n == 0 then [] else [Percentage(Count(grid, lo), |grid|)] + PercentRow(grid, lo + 1, n - 1)
  }

  /** What the report should say, level by level from 1 to 9, counted
      directly on the grid. */
  function LevelPercentages(grid: seq<int>): (row: seq<real>)
    requires |grid| > 0
    ensures |row| == 9
    ensures forall k :: 0 <= k < 9 ==> 0.0 <= row[k] <= 100.0
    ensures forall k :: 0 <= k < 9 && k + 1 !in grid ==> row[k] == 0.0
  {
    PercentRow(grid, 1, 9)
  }

  /** The number of cells holding one of the n levels starting at lo. */
  function CountRange(grid: seq<int>, lo: int, n: nat): nat
    decreases n
  {
    if n == 0 then 0 else Count(grid, lo) + CountRange(grid, lo + 1, n - 1)
  }

  function Sum(s: seq<real>): real {
    if s == [] then 0.0 else s[0] + Sum(s[1..])
  }

  /** Every value of the grid is a Bortle class. */
  predicate AllClasses(grid: seq<int>) {
    forall i :: 0 <= i < |grid| ==> 1 <= grid[i] <= 9
  }

  /** The loop of calculate_area_statistics: a count table from the grid, its
      total, then one percentage per level 1..9, 0 where a level is absent. */
  method CalculateAreaStatistics(bortleMap: seq<int>) returns (report: Report)
    ensures |bortleMap| == 0 ==> report == DivisionByZero
    ensures |bortleMap| > 0 ==> report == Percentages(LevelPercentages(bortleMap))
  {
    var stats := Tally(bortleMap);
    var totalPixels := Total(stats);
    TallyTotal(bortleMap);
    if totalPixels == 0 {
      return DivisionByZero;
    }
    var byLevel: seq<real> := [];
    for level := 1 to 10
      invariant byLevel == PercentRow(bortleMap, 1, level - 1)
    {
      var count := Lookup(stats, level);
      TallyLookup(bortleMap, level);
      PercentRowSnoc(bortleMap, 1, level - 1);
      byLevel := byLevel + [Percentage(count, totalPixels)];
    }
    report := Percentages(byLevel);
  }

  /** A run of levels extended by the next level gains that level's
      percentage at its end. */
  lemma PercentRowSnoc(grid: seq<int>, lo: int, n: nat)
    requires |grid| > 0
    ensures PercentRow(grid, lo, n + 1) == PercentRow(grid, lo, n) + [Percentage(Count(grid, lo + n), |grid|)]
  {
  }

  /** Insertion adds one to the count of v and leaves every other count. */
  lemma {:induction false} InsertLookup(stats: seq<Entry>, v: int, level: int)
    requires LevelsAscending(stats)
    ensures Lookup(Insert(stats, v), level) == Lookup(stats, level) + (if level == v then 1 else 0)
  {
    if stats != [] && stats[0].level != v {
      if v < stats[0].level {
        if level == v {
          LookupAbsent(stats, v);
        }
      } else {
        InsertLookup(stats[1..], v, level);
      }
    }
  }

  /** In a table with distinct levels, looking up an entry's level gives
      that entry's count. */
  lemma {:induction false} LookupFinds(stats: seq<Entry>, i: nat)
    requires LevelsAscending(stats) && i < |stats|
    ensures Lookup(stats, stats[i].level) == stats[i].count
  {
    if i > 0 {
      assert stats[0].level < stats[i].level;
      assert stats[1..][i - 1] == stats[i];
      LookupFinds(stats[1..], i - 1);
    }
  }

  /** A level the table does not hold is looked up as 0. */
  lemma {:induction false} LookupAbsent(stats: seq<Entry>, level: int)
    requires level !in Levels(stats)
    ensures Lookup(stats, level) == 0
  {
    if stats != [] {
      assert stats[0] in stats;
      assert Levels(stats[1..]) <= Levels(stats) by {
        forall e | e in stats[1..] ensures e in stats { }
      }
      LookupAbsent(stats[1..], level);
    }
  }

  /** Insertion adds one to the total. */
  lemma {:induction false} InsertTotal(stats: seq<Entry>, v: int)
    requires LevelsAscending(stats)
    ensures Total(Insert(stats, v)) == Total(stats) + 1
  {
    if stats != [] && stats[0].level != v && v > stats[0].level {
      InsertTotal(stats[1..], v);
    } else if stats != [] && stats[0].level == v {
      assert ([Entry(v, stats[0].count + 1)] + stats[1..])[1..] == stats[1..];
    }
  }

  lemma LevelsCons(head: Entry, tail: seq<Entry>)
    ensures Levels([head] + tail) == {head.level} + Levels(tail)
  {
    assert forall e :: e in [head] + tail <==> e == head || e in tail;
  }

  /** Insertion makes v one of the table's levels and keeps the others. */
  lemma {:induction false} InsertLevels(stats: seq<Entry>, v: int)
    requires LevelsAscending(stats)
    ensures Levels(Insert(stats, v)) == Levels(stats) + {v}
  {
    if stats != [] {
      assert stats == [stats[0]] + stats[1..];
      LevelsCons(stats[0], stats[1..]);
      if stats[0].level == v {
        LevelsCons(Entry(v, stats[0].count + 1), stats[1..]);
      } else if v < stats[0].level {
        LevelsCons(Entry(v, 1), stats);
      } else {
        InsertLevels(stats[1..], v);
        LevelsCons(stats[0], Insert(stats[1..], v));
      }
    }
  }

  /** Insertion keeps every count positive. */
  lemma {:induction false} InsertPositive(stats: seq<Entry>, v: int)
    requires LevelsAscending(stats) && PositiveCounts(stats)
    ensures PositiveCounts(Insert(stats, v))
  {
    if stats != [] && stats[0].level < v {
      InsertPositive(stats[1..], v);
    }
  }

  /** The table holds exactly the distinct values of the grid, each with a
      positive count, as np.unique reports them. */
  lemma {:induction false} TallyLevels(grid: seq<int>)
    ensures Levels(Tally(grid)) == set v | v in grid
    ensures PositiveCounts(Tally(grid))
  {
    if grid != [] {
      TallyLevels(grid[1..]);
      InsertLevels(Tally(grid[1..]), grid[0]);
      InsertPositive(Tally(grid[1..]), grid[0]);
      assert (set v | v in grid) == (set v | v in grid[1..]) + {grid[0]} by {
        assert grid == [grid[0]] + grid[1..];
      }
    }
  }

  /** `stats.get(level, 0)` is the number of cells holding level, including
      0 for a level that never occurs. */
  lemma {:induction false} TallyLookup(grid: seq<int>, level: int)
    ensures Lookup(Tally(grid), level) == Count(grid, level)
  {
    if grid != [] {
      TallyLookup(grid[1..], level);
      InsertLookup(Tally(grid[1..]), grid[0], level);
    }
  }

  /** `total_pixels = sum(counts)` is the number of cells of the grid. */
  lemma {:induction false} TallyTotal(grid: seq<int>)
    ensures Total(Tally(grid)) == |grid|
  {
    if grid != [] {
      TallyTotal(grid[1..]);
      InsertTotal(Tally(grid[1..]), grid[0]);
    }
  }

  /** Counting one more cell on the front adds one to the count of its level
      if that level is in range. */
  lemma {:induction false} CountRangeCons(grid: seq<int>, lo: int, n: nat)
    requires grid != []
    ensures CountRange(grid, lo, n)
      == (if lo <= grid[0] < lo + n then 1 else 0) + CountRange(grid[1..], lo, n)
    decreases n
  {
    if n > 0 {
      CountRangeCons(grid, lo + 1, n - 1);
    }
  }

  /** When every value lies among the n levels from lo, their counts add up
      to the number of cells. */
  lemma {:induction false} CountRangeCovers(grid: seq<int>, lo: int, n: nat)
    requires forall i :: 0 <= i < |grid| ==> lo <= grid[i] < lo + n
    ensures CountRange(grid, lo, n) == |grid|
  {
    if grid == [] {
      CountRangeEmpty(lo, n);
    } else {
      CountRangeCons(grid, lo, n);
      assert forall i :: 0 <= i < |grid[1..]| ==> grid[1..][i] == grid[i + 1];
      CountRangeCovers(grid[1..], lo, n);
    }
  }

  lemma {:induction false} CountRangeEmpty(lo: int, n: nat)
    ensures CountRange([], lo, n) == 0
    decreases n
  {
    if n > 0 {
      CountRangeEmpty(lo + 1, n - 1);
    }
  }

  /** The per-level counts of levels 1..9 add up to the number of cells of a
      grid of Bortle classes. */
  lemma LevelCountsCoverGrid(grid: seq<int>)
    requires AllClasses(grid)
    ensures CountRange(grid, 1, 9) == |grid|
  {
    CountRangeCovers(grid, 1, 9);
  }

  lemma PercentageAdd(a: nat, b: nat, total: nat)
    requires total > 0
    ensures Percentage(a, total) + Percentage(b, total) == Percentage(a + b, total)
  {
  }

  /** The percentages of a run of levels add up to the percentage of their
      combined count. */
  lemma {:induction false} PercentRowSum(grid: seq<int>, lo: int, n: nat)
    requires |grid| > 0
    ensures Sum(PercentRow(grid, lo, n)) == Percentage(CountRange(grid, lo, n), |grid|)
    decreases n
  {
    if n > 0 {
      var row := PercentRow(grid, lo, n);
      assert row[1..] == PercentRow(grid, lo + 1, n - 1);
      PercentRowSum(grid, lo + 1, n - 1);
      PercentageAdd(Count(grid, lo), CountRange(grid, lo + 1, n - 1), |grid|);
    }
  }

  /** For a non-empty grid of Bortle classes the nine percentages add up to
      exactly 100. */
  lemma PercentagesSumTo100(grid: seq<int>)
    requires |grid| > 0 && AllClasses(grid)
    ensures Sum(LevelPercentages(grid)) == 100.0
  {
    PercentRowSum(grid, 1, 9);
    LevelCountsCoverGrid(grid);
  }
}
