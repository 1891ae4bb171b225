/**
 * The per-player statistics table (src/TotalStats.tsx): a fold of the
 * battle history into counters per player colour, the rounded average unit
 * size, and the "best value" highlighting.
 */
module TotalStats {
  import opened Options
  import opened HistoryTypes
  import StartScreen
  import opened Arithmetic

  datatype PlayerStats = PlayerStats(color: string, battles: int, units: int, totalSize: int, totalDamage: int)

  /** `!row.isReroll`: a row whose flag is missing or false counts. */
  predicate Counted(row: DamageRow) {
    row.isReroll != Some(true)
  }

  /** `row.damage || 0`: a missing damage counts as 0. */
  function DamageOrZero(row: DamageRow): int {
    if row.damage.Some? then row.damage.value else 0
  }

  /** Whether some row of the battle belongs to `color`. */
  predicate TookPart(entry: HistoryEntry, color: string) {
    exists j :: 0 <= j < |entry.rows| && entry.rows[j].color == color
  }

  /** Every row of the battle belongs to one of the players. */
  predicate EntryRegistered(entry: HistoryEntry, colors: seq<string>) {
    forall j :: 0 <= j < |entry.rows| ==> entry.rows[j].color in colors
  }

  /** Every row of the history belongs to one of the players: the lookup `stats[row.color]` never fails. */
  predicate AllRegistered(history: seq<HistoryEntry>, colors: seq<string>) {
    forall h :: 0 <= h < |history| ==> EntryRegistered(history[h], colors)
  }

  // Reference definitions of the four counters, one entry (and one row) at a time.

  /** The number of battles `color` took part in. */
  function Battles(history: seq<HistoryEntry>, color: string): nat {
    if history == [] then 0
    else Battles(history[..|history| - 1], color) + (if TookPart(history[|history| - 1], color) then 1 else 0)
  }

  function RowsUnits(rows: seq<DamageRow>, color: string): nat {
    if rows == [] then 0
    else
      var r := rows[|rows| - 1];
      RowsUnits(rows[..|rows| - 1], color) + (if r.color == color && Counted(r) then 1 else 0)
  }

  function RowsSize(rows: seq<DamageRow>, color: string): int {
    if rows == [] then 0
    else
      var r := rows[|rows| - 1];
      RowsSize(rows[..|rows| - 1], color) + (if r.color == color && Counted(r) then r.unitSize else 0)
  }

  function RowsDamage(rows: seq<DamageRow>, color: string): int {
    if rows == [] then 0
    else
      var r := rows[|rows| - 1];
      RowsDamage(rows[..|rows| - 1], color) + (if r.color == color && Counted(r) then DamageOrZero(r) else 0)
  }

  /** The number of non-reroll rows of `color` in the whole history. */
  function Units(history: seq<HistoryEntry>, color: string): nat {
    if history == [] then 0
    else Units(history[..|history| - 1], color) + RowsUnits(history[|history| - 1].rows, color)
  }

  /** The summed unit size of the non-reroll rows of `color`. */
  function TotalSize(history: seq<HistoryEntry>, color: string): int {
    if history == [] then 0
    else TotalSize(history[..|history| - 1], color) + RowsSize(history[|history| - 1].rows, color)
  }

  /** The summed damage of the non-reroll rows of `color`. */
  function TotalDamage(history: seq<HistoryEntry>, color: string): int {
    if history == [] then 0
    else TotalDamage(history[..|history| - 1], color) + RowsDamage(history[|history| - 1].rows, color)
  }

  /** The statistics one player's line of the table should show. */
  function StatsFor(history: seq<HistoryEntry>, color: string): PlayerStats {
    PlayerStats(color, Battles(history, color), Units(history, color), TotalSize(history, color), TotalDamage(history, color))
  }

  /** The dictionary `stats` holds a line exactly for each player colour. */
  ghost predicate KeyedBy(stats: map<string, PlayerStats>, colors: seq<string>) {
    forall c :: c in stats <==> c in colors
  }

  /** `playerColors.forEach(color => stats[color] = {...zeros})`. */
  method InitStats(playerColors: seq<string>) returns (stats: map<string, PlayerStats>)
    ensures KeyedBy(stats, playerColors)
    ensures forall c :: c in stats ==> stats[c] == PlayerStats(c, 0, 0, 0, 0)
  {
    stats := map[];
    for i := 0 to |playerColors|
      invariant forall c :: c in stats <==> c in playerColors[..i]
      invariant forall c :: c in stats ==> stats[c] == PlayerStats(c, 0, 0, 0, 0)
    {
      assert playerColors[..i + 1] == playerColors[..i] + [playerColors[i]];
      stats := stats[playerColors[i] := PlayerStats(playerColors[i], 0, 0, 0, 0)];
    }
    assert playerColors[..|playerColors|] == playerColors;
  }

  /**
   * `new Set(entry.rows.map(row => row.color)).forEach(color => stats[color].battles++)`:
   * every colour present in the battle gains one battle; None when one of them
   * has no line (the lookup throws).
   */
  method CountBattle(stats: map<string, PlayerStats>, entry: HistoryEntry) returns (result: Option<map<string, PlayerStats>>)
    ensures result.None? <==> exists j :: 0 <= j < |entry.rows| && entry.rows[j].color !in stats
    ensures result.Some? ==> result.value.Keys == stats.Keys
    ensures result.Some? ==> forall c :: c in stats ==>
      result.value[c] == stats[c].(battles := stats[c].battles + (if TookPart(entry, c) then 1 else 0))
  {
    var battleColors := set j | 0 <= j < |entry.rows| :: entry.rows[j].color;
    var updated := stats;
    var remaining := battleColors;
    while remaining != {}
      invariant remaining <= battleColors
      invariant updated.Keys == stats.Keys
      invariant battleColors - remaining <= stats.Keys
      invariant forall c :: c in stats ==>
        updated[c] == stats[c].(battles := stats[c].battles + (if c in battleColors - remaining then 1 else 0))
      decreases remaining
    {
      var c :| c in remaining;
      if c !in updated {
        return None;
      }
      updated := updated[c := updated[c].(battles := updated[c].battles + 1)];
      remaining := remaining - {c};
    }
    forall c | c in stats
      ensures c in battleColors <==> TookPart(entry, c)
    {
      if TookPart(entry, c) {
        var j :| 0 <= j < |entry.rows| && entry.rows[j].color == c;
        assert entry.rows[j].color in battleColors;
      }
    }
    forall j | 0 <= j < |entry.rows|
      ensures entry.rows[j].color in stats
    {
      assert entry.rows[j].color in battleColors;
    }
    result := Some(updated);
  }

  /**
   * `entry.rows.forEach(row => { if (!row.isReroll) { units++; totalSize += unitSize; totalDamage += damage || 0 } })`.
   */
  method CountRows(stats: map<string, PlayerStats>, rows: seq<DamageRow>) returns (updated: map<string, PlayerStats>)
    requires forall j :: 0 <= j < |rows| ==> rows[j].color in stats
    ensures updated.Keys == stats.Keys
    ensures forall c :: c in stats ==>
      updated[c] == stats[c].(units := stats[c].units + RowsUnits(rows, c),
                              totalSize := stats[c].totalSize + RowsSize(rows, c),
                              totalDamage := stats[c].totalDamage + RowsDamage(rows, c))
  {
    updated := stats;
    for j := 0 to |rows|
      invariant updated.Keys == stats.Keys
      invariant forall c :: c in stats ==>
        updated[c] == stats[c].(units := stats[c].units + RowsUnits(rows[..j], c),
                                totalSize := stats[c].totalSize + RowsSize(rows[..j], c),
                                totalDamage := stats[c].totalDamage + RowsDamage(rows[..j], c))
    {
      var row := rows[j];
      assert rows[..j + 1][..j] == rows[..j];
      if Counted(row) {
        var s := updated[row.color];
        updated := updated[row.color := s.(units := s.units + 1, totalSize := s.totalSize + row.unitSize,
                                           totalDamage := s.totalDamage + DamageOrZero(row))];
      }
    }
    assert rows[..|rows|] == rows;
  }

  /**
   * `calculatePlayerStats`: one line per player colour, in the players' order,
   * holding that colour's counters; None when some row of the history belongs
   * to no player (the JavaScript lookup throws).
   */
  method CalculatePlayerStats(history: seq<HistoryEntry>, playerColors: seq<string>) returns (result: Option<seq<PlayerStats>>)
    requires StartScreen.Distinct(playerColors)
    ensures result.None? <==> !AllRegistered(history, playerColors)
    ensures result.Some? ==> |result.value| == |playerColors|
    ensures result.Some? ==> forall i :: 0 <= i < |playerColors| ==> result.value[i] == StatsFor(history, playerColors[i])
  {
    var stats := InitStats(playerColors);
    for h := 0 to |history|
      invariant KeyedBy(stats, playerColors)
      invariant forall k :: 0 <= k < h ==> EntryRegistered(history[k], playerColors)
      invariant forall c :: c in stats ==> stats[c] == StatsFor(history[..h], c)
    {
      assert history[..h + 1][..h] == history[..h];
      var counted := CountBattle(stats, history[h]);
      if counted.None? {
        return None;
      }
      stats := CountRows(counted.value, history[h].rows);
    }
    assert history[..|history|] == history;

    // Object.values(stats): insertion order, which is the players' order.
    var lines: seq<PlayerStats> := [];
    for i := 0 to |playerColors|
      invariant |lines| == i
      invariant forall k :: 0 <= k < i ==> lines[k] == StatsFor(history, playerColors[k])
    {
      lines := lines + [stats[playerColors[i]]];
    }
    result := Some(lines);
  }

  /** A player cannot have fought more battles than the history holds. */
  lemma {:induction false} BattlesAtMost(history: seq<HistoryEntry>, color: string)
    ensures Battles(history, color) <= |history|
  {
    if history != [] {
      BattlesAtMost(history[..|history| - 1], color);
    }
  }

  /** A battle counts for a player whether or not the player's rows in it were rerolls. */
  lemma BattleCountsRerolls(history: seq<HistoryEntry>, color: string, entry: HistoryEntry)
    requires exists j :: 0 <= j < |entry.rows| && entry.rows[j].color == color
    ensures Battles(history + [entry], color) == Battles(history, color) + 1
  {
  }

  /** Reroll rows add nothing to `units`, `totalSize` or `totalDamage`. */
  lemma {:induction false} RerollRowsCountNothing(rows: seq<DamageRow>, color: string)
    requires forall j :: 0 <= j < |rows| ==> !Counted(rows[j])
    ensures RowsUnits(rows, color) == 0 && RowsSize(rows, color) == 0 && RowsDamage(rows, color) == 0
  {
    if rows != [] {
      RerollRowsCountNothing(rows[..|rows| - 1], color);
    }
  }

  /**
   * A battle made only of reroll rows leaves every counter but `battles` as it was;
   * `battles` still grows for each colour that appears in it.
   */
  lemma RerollOnlyBattle(history: seq<HistoryEntry>, entry: HistoryEntry, color: string)
    requires forall j :: 0 <= j < |entry.rows| ==> !Counted(entry.rows[j])
    ensures StatsFor(history + [entry], color)
         == StatsFor(history, color).(battles := Battles(history, color) + (if TookPart(entry, color) then 1 else 0))
  {
    assert (history + [entry])[..|history|] == history;
    RerollRowsCountNothing(entry.rows, color);
  }

  // Summing a counter over all players.

  /** Number of non-reroll rows in a list of rows. */
  function CountedRows(rows: seq<DamageRow>): nat {
    if rows == [] then 0
    else CountedRows(rows[..|rows| - 1]) + (if Counted(rows[|rows| - 1]) then 1 else 0)
  }

  /** Number of non-reroll rows in the whole history. */
  function CountedInHistory(history: seq<HistoryEntry>): nat {
    if history == [] then 0
    else CountedInHistory(history[..|history| - 1]) + CountedRows(history[|history| - 1].rows)
  }

  /** Sum over the players of their `units` in a list of rows. */
  function SumRowsUnits(colors: seq<string>, rows: seq<DamageRow>): nat {
    if colors == [] then 0
    else SumRowsUnits(colors[..|colors| - 1], rows) + RowsUnits(rows, colors[|colors| - 1])
  }

  /** Sum over the players of their `units` in the history. */
  function SumUnits(colors: seq<string>, history: seq<HistoryEntry>): nat {
    if colors == [] then 0
    else SumUnits(colors[..|colors| - 1], history) + Units(history, colors[|colors| - 1])
  }

  /** Number of times `color` occurs in `colors`. */
  function Occurrences(colors: seq<string>, color: string): nat {
    if colors == [] then 0
    else Occurrences(colors[..|colors| - 1], color) + (if colors[|colors| - 1] == color then 1 else 0)
  }

  /** In a list without duplicates a colour occurs once if present, and never otherwise. */
  lemma {:induction false} OccurrencesDistinct(colors: seq<string>, color: string)
    requires StartScreen.Distinct(colors)
    ensures Occurrences(colors, color) == if color in colors then 1 else 0
  {
    if colors != [] {
      var init := colors[..|colors| - 1];
      assert StartScreen.Distinct(init);
      OccurrencesDistinct(init, color);
      assert colors == init + [colors[|colors| - 1]];
      if colors[|colors| - 1] == color {
        assert color !in init;
      }
    }
  }

  /** One more row adds its count to exactly the players that carry its colour. */
  lemma {:induction false} SumRowsUnitsStep(colors: seq<string>, rows: seq<DamageRow>, row: DamageRow)
    ensures SumRowsUnits(colors, rows + [row])
         == SumRowsUnits(colors, rows) + (if Counted(row) then Occurrences(colors, row.color) else 0)
  {
    assert (rows + [row])[..|rows|] == rows;
    if colors != [] {
      SumRowsUnitsStep(colors[..|colors| - 1], rows, row);
    }
  }

  /** Within one battle, the players' units add up to the battle's non-reroll rows. */
  lemma {:induction false} SumRowsUnitsTotal(colors: seq<string>, rows: seq<DamageRow>)
    requires StartScreen.Distinct(colors)
    requires forall j :: 0 <= j < |rows| ==> rows[j].color in colors
    ensures SumRowsUnits(colors, rows) == CountedRows(rows)
  {
    if rows == [] {
      SumRowsUnitsEmpty(colors, rows);
    } else {
      var init, last := rows[..|rows| - 1], rows[|rows| - 1];
      SumRowsUnitsTotal(colors, init);
      assert rows == init + [last];
      SumRowsUnitsStep(colors, init, last);
      OccurrencesDistinct(colors, last.color);
    }
  }

  lemma {:induction false} SumRowsUnitsEmpty(colors: seq<string>, rows: seq<DamageRow>)
    requires rows == []
    ensures SumRowsUnits(colors, rows) == 0
  {
    if colors != [] {
      SumRowsUnitsEmpty(colors[..|colors| - 1], rows);
    }
  }

  /** One more battle adds, over all players, what each player has in it. */
  lemma {:induction false} SumUnitsStep(colors: seq<string>, history: seq<HistoryEntry>, entry: HistoryEntry)
    ensures SumUnits(colors, history + [entry]) == SumUnits(colors, history) + SumRowsUnits(colors, entry.rows)
  {
    assert (history + [entry])[..|history|] == history;
    if colors != [] {
      SumUnitsStep(colors[..|colors| - 1], history, entry);
    }
  }

  lemma {:induction false} SumUnitsEmpty(colors: seq<string>, history: seq<HistoryEntry>)
    requires history == []
    ensures SumUnits(colors, history) == 0
  {
    if colors != [] {
      SumUnitsEmpty(colors[..|colors| - 1], history);
    }
  }

  /**
   * When every row belongs to one of the (distinct) players, the players'
   * `units` add up to the number of non-reroll rows in the history.
   */
  lemma {:induction false} SumUnitsTotal(colors: seq<string>, history: seq<HistoryEntry>)
    requires StartScreen.Distinct(colors) && AllRegistered(history, colors)
    ensures SumUnits(colors, history) == CountedInHistory(history)
  {
    if history == [] {
      SumUnitsEmpty(colors, history);
    } else {
      var init, last := history[..|history| - 1], history[|history| - 1];
      assert AllRegistered(init, colors) by {
        forall h | 0 <= h < |init| ensures EntryRegistered(init[h], colors) {
          assert init[h] == history[h];
        }
      }
      SumUnitsTotal(colors, init);
      assert history == init + [last];
      SumUnitsStep(colors, init, last);
      assert EntryRegistered(history[|history| - 1], colors);
      SumRowsUnitsTotal(colors, last.rows);
    }
  }

  // Average size and best-value highlighting.

  /**
   * The "Avg Size" column: `units > 0 ? Math.round(totalSize / units) : 0`, where
   * `Math.round(x)` is the floor of x + 1/2 (halves round up).
   */
  function AvgSize(units: int, totalSize: int): (avg: int)
    ensures units > 0 ==> (2 * avg - 1) * units <= 2 * totalSize < (2 * avg + 1) * units
    ensures units <= 0 ==> avg == 0
  {
    if units > 0 then
      var avg := (totalSize as real / units as real + 0.5).Floor;
      RoundHalfUpBounds(totalSize, units, avg);
      avg
    else 0
  }

  /** The floor of t/u + 1/2 is within half a unit of t/u, and is the integer quotient (2t + u) / 2u. */
  lemma RoundHalfUpBounds(t: int, u: int, a: int)
    requires u > 0 && a == (t as real / u as real + 0.5).Floor
    ensures a == (2 * t + u) / (2 * u)
    ensures (2 * a - 1) * u <= 2 * t < (2 * a + 1) * u
  {
    var x := t as real / u as real;
    var y := (2 * t + u) as real / (2 * u) as real;
    assert x * u as real == t as real;
    assert y * (2 * u) as real == (2 * t + u) as real;
    assert (x + 0.5) * (2 * u) as real == (2 * t + u) as real;
    CancelNonZero(x + 0.5, y, (2 * u) as real);
    FloorOfQuotient(2 * t + u, 2 * u);
    var r := (2 * t + u) % (2 * u);
    assert 2 * t + u == a * (2 * u) + r && 0 <= r < 2 * u;
    assert a * (2 * u) == 2 * (a * u);
    assert (2 * a - 1) * u == 2 * (a * u) - u;
    assert (2 * a + 1) * u == 2 * (a * u) + u;
  }

  /** The average is the nearest integer to totalSize / units, computed over the integers. */
  lemma AvgSizeClosedForm(units: int, totalSize: int)
    requires units > 0
    ensures AvgSize(units, totalSize) == (2 * totalSize + units) / (2 * units)
  {
    var avg := AvgSize(units, totalSize);
    assert (2 * avg - 1) * units == avg * (2 * units) - units;
    assert (2 * avg + 1) * units == (avg + 1) * (2 * units) - units;
    DivUnique(2 * totalSize + units, 2 * units, avg);
  }

  /** A player whose units all had the same size k averages exactly k. */
  lemma AvgSizeExact(units: int, k: int)
    requires units > 0
    ensures AvgSize(units, k * units) == k
  {
    var avg := AvgSize(units, k * units);
    assert (2 * avg - 1) * units < (2 * k + 1) * units;
    assert (2 * k - 1) * units < (2 * avg + 1) * units;
  }

  /** The four counters a column can show. */
  datatype StatKey = BattlesKey | UnitsKey | TotalSizeKey | TotalDamageKey

  function StatValue(stat: PlayerStats, key: StatKey): int {
    match key
    case BattlesKey => stat.battles
    case UnitsKey => stat.units
    case TotalSizeKey => stat.totalSize
    case TotalDamageKey => stat.totalDamage
  }

  /**
   * `Math.max(...values)`: the largest value, or None standing for the
   * `-Infinity` that `Math.max()` gives on an empty list.
   */
  function Max(values: seq<int>): (m: Option<int>)
    ensures m.None? <==> values == []
    ensures m.Some? ==> m.value in values
    ensures m.Some? ==> forall i :: 0 <= i < |values| ==> values[i] <= m.value
  {
    if values == [] then None
    else
      var rest := Max(values[..|values| - 1]);
      var last := values[|values| - 1];
      assert values == values[..|values| - 1] + [last];
      if rest.None? || rest.value < last then Some(last) else rest
  }

  /** One column of the table. */
  function Column(stats: seq<PlayerStats>, key: StatKey): (values: seq<int>)
    ensures |values| == |stats|
    ensures forall i :: 0 <= i < |stats| ==> values[i] == StatValue(stats[i], key)
  {
    if stats == [] then [] else Column(stats[..|stats| - 1], key) + [StatValue(stats[|stats| - 1], key)]
  }

  /** The "Avg Size" column. */
  function AvgColumn(stats: seq<PlayerStats>): (values: seq<int>)
    ensures |values| == |stats|
    ensures forall i :: 0 <= i < |stats| ==> values[i] == AvgSize(stats[i].units, stats[i].totalSize)
  {
    if stats == [] then []
    else AvgColumn(stats[..|stats| - 1]) + [AvgSize(stats[|stats| - 1].units, stats[|stats| - 1].totalSize)]
  }

  /**
   * `getBestValue(statKey)`: nothing on an empty table, otherwise a value of
   * the column that no player exceeds.
   */
  function BestValue(stats: seq<PlayerStats>, key: StatKey): (best: Option<int>)
    ensures best.None? <==> stats == []
    ensures best.Some? ==> exists i :: 0 <= i < |stats| && StatValue(stats[i], key) == best.value
    ensures best.Some? ==> forall j :: 0 <= j < |stats| ==> StatValue(stats[j], key) <= best.value
  {
    var column := Column(stats, key);
    var best := Max(column);
    assert best.Some? ==> exists i :: 0 <= i < |column| && column[i] == best.value;
    best
  }

  /**
   * `isBestValue(value, statKey)`: the value is some player's and no player
   * has a larger one (never, on an empty table).
   */
  predicate IsBestValue(stats: seq<PlayerStats>, value: int, key: StatKey)
    ensures IsBestValue(stats, value, key) <==>
      (exists i :: 0 <= i < |stats| && StatValue(stats[i], key) == value) &&
      forall j :: 0 <= j < |stats| ==> StatValue(stats[j], key) <= value
  {
    BestValue(stats, key) == Some(value)
  }

  /**
   * `getBestAvgSize()`: nothing on an empty table, otherwise an average that
   * no player exceeds.
   */
  function BestAvgSize(stats: seq<PlayerStats>): (best: Option<int>)
    ensures best.None? <==> stats == []
    ensures best.Some? ==> exists i :: 0 <= i < |stats| && AvgSize(stats[i].units, stats[i].totalSize) == best.value
    ensures best.Some? ==> forall j :: 0 <= j < |stats| ==> AvgSize(stats[j].units, stats[j].totalSize) <= best.value
  {
    var column := AvgColumn(stats);
    var best := Max(column);
    assert best.Some? ==> exists i :: 0 <= i < |column| && column[i] == best.value;
    best
  }

  /**
   * `isBestAvgSize(units, totalSize)`: the average of these totals is some
   * player's and no player has a larger one.
   */
  predicate IsBestAvgSize(stats: seq<PlayerStats>, units: int, totalSize: int)
    ensures IsBestAvgSize(stats, units, totalSize) <==>
      (exists i :: 0 <= i < |stats| && AvgSize(stats[i].units, stats[i].totalSize) == AvgSize(units, totalSize)) &&
      forall j :: 0 <= j < |stats| ==> AvgSize(stats[j].units, stats[j].totalSize) <= AvgSize(units, totalSize)
  {
    BestAvgSize(stats) == Some(AvgSize(units, totalSize))
  }

  /** A player's value is highlighted exactly when no player has a larger one. */
  lemma IsBestValueIff(stats: seq<PlayerStats>, i: int, key: StatKey)
    requires 0 <= i < |stats|
    ensures IsBestValue(stats, StatValue(stats[i], key), key)
        <==> forall j :: 0 <= j < |stats| ==> StatValue(stats[j], key) <= StatValue(stats[i], key)
  {
  }

  /** A player's average is highlighted exactly when no player has a larger average. */
  lemma IsBestAvgSizeIff(stats: seq<PlayerStats>, i: int)
    requires 0 <= i < |stats|
    ensures IsBestAvgSize(stats, stats[i].units, stats[i].totalSize)
        <==> forall j :: 0 <= j < |stats| ==>
               AvgSize(stats[j].units, stats[j].totalSize) <= AvgSize(stats[i].units, stats[i].totalSize)
  {
  }
}
