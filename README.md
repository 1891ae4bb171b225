# Strategicon damage calculator — Dafny model

Strategicon is a browser-based calculator for a tabletop wargame. Players
pick their colours on a start screen. They enter units into a battle: each
unit has a die (d4 to d20), a unit size and a bonus. One "Battle!" button
rolls every unit and resolves its damage with a fixed formula. A statistics
table folds the battle history into per-player counters.

This project models three pieces of that logic and proves properties of
them:

- **Dice** (`dice.dfy`, pure part of `src/App.tsx`):
  - the die table;
  - how `handleRoll` reads a die's maximum back from its name
    (`parseInt(diceType.substring(1))`);
  - the roll drawn from `Math.random()`;
  - the damage formula `floor(N * (1 + (R - M) / (R + M - 2 + N/2)))`.
    It is written with exact reals and proved equal to the integer form
    `floor(N(4R + N - 4) / (2R + 2M + N - 4))`. That form is used to prove
    bounds, the value at the top face, and monotonicity in the roll.
- **Calculator** (`calculator.dfy`, state of `src/App.tsx`): a class that
  holds the battle's ordered `rows`, the entry form `newRow` and
  `lastRollTime`. Its handlers are add row, roll all, delete by id and
  select die. `Valid()` is the invariant they keep: every row has a
  positive unit size, any roll lies on its die, and any damage lies between
  0 and the unit size.
- **History types** (`history_types.dfy`, `src/types.ts`): archived rows
  with their owner colour and reroll flag, and battle records.
- **Total stats** (`total_stats.dfy`, `src/TotalStats.tsx`):
  - `calculatePlayerStats` as an imperative fold over a dictionary, proved
    against reference definitions of the four counters;
  - the sum of `units` over all players;
  - the rounded average size;
  - the "best value" highlighting.
- **Arithmetic** (`arithmetic.dfy`): helper facts about integer division
  and real floors, used by the damage formula and the average column.
- **Start screen** (`start_screen.dfy`, `src/StartScreen.tsx`):
  - a class that holds the colour list and the error text, with the
    handlers to change, add and remove a colour, and to start;
  - the duplicate test `new Set(colors).size !== colors.length`, proved
    equivalent to pairwise distinctness.

`src/App.tsx` has no bonus arithmetic, overflow, per-die damage caps,
reroll insertion, battle archiving, single-colour ban or restriction of
deletion to before the roll; none is modelled.

In the code the bonus is stored, carried through a roll and displayed
(src/App.tsx:200), and never used in the damage.
The error text in the code reads "All players must have different colors".
The model uses the code's strings.

## Model

| member | source | states |
|---|---|---|
| Dice.DiceName | src/App.tsx:14 | every die's name starts with "d" followed by at least one character |
| Dice.DiceMaxValue | src/App.tsx:17-24 | each die has an even number of faces between 4 and 20, and reading the number after the die's "d" back, as `handleRoll` does, gives exactly that number |
| Dice.ParseInt | src/App.tsx:65 | on text without sign or leading blanks (the only text it is applied to is a die name's suffix), parsing gives no number (NaN) exactly when the text does not start with a digit |
| Dice.DiceMaxFromName | src/App.tsx:65 | reading a die maximum from a name gives no number (NaN) exactly when the name has fewer than two characters or its second is not a digit |
| Dice.DefaultUnitSize | src/App.tsx:92-100 | the default unit size is the mean of 1..M rounded down: 2n <= M+1 < 2n+2, and it lies in [1, M] |
| Dice.DrawRoll | src/App.tsx:66 | `floor(random * M) + 1` lies in [1, M] for every draw in [0, 1) |
| Dice.RollCoversEveryFace | src/App.tsx:66 | every face 1..M is the roll of some draw in [0, 1) |
| Dice.Damage | src/App.tsx:69-71 | the floored real-valued formula equals the integer division N(4R+N-4) / (2R+2M+N-4), whose denominator is positive for N, R, M >= 1 |
| Dice.DamageBounds | src/App.tsx:69-71 | for 1 <= R <= M and N >= 1 the damage lies in [0, N] |
| Dice.DamageAtMaxRoll | src/App.tsx:69-71 | rolling the die's maximum deals exactly N |
| Dice.DamageMonotone | src/App.tsx:69-71 | for fixed N and M, a higher roll never deals less damage |
| Calculator.InitialNewRow | src/App.tsx:30-39 | the form opens with a d6, unit size 3 (the d6 default) and bonus 0 |
| Calculator.CanAdd | src/App.tsx:42 | the guard admits a form exactly when a die, a unit size and a bonus are set and the unit size is non-zero; a form it admits with a unit size that is not negative gives a well-formed row, whatever its id |
| Calculator.RollRow | src/App.tsx:64-82 | a rolled row keeps id, die, unit size and bonus; its roll lies on the die, where M is parsed from the die's name; its damage is the formula for that roll and lies in [0, N] |
| Calculator.DamageIgnoresBonus | src/App.tsx:69-82 | changing a row's bonus changes neither its roll nor its damage, and the bonus is carried through |
| Calculator.WithoutId | src/App.tsx:89 | the filtered list holds exactly the rows whose id differs from the deleted one, and none with that id |
| Calculator.WithoutIdAppend | src/App.tsx:89 | filtering distributes over concatenation, so kept rows keep their relative order |
| Calculator.WithoutAbsentId | src/App.tsx:89 | deleting an id that no row carries leaves the list unchanged |
| Calculator.WithoutIdLength | src/App.tsx:89 | the list shrinks by exactly the number of rows carrying the id |
| Calculator.Calculator.constructor | src/App.tsx:26-39 | the screen opens with no rows, no roll time and the initial form, and is valid |
| Calculator.Calculator.AddRow | src/App.tsx:41-61 | when the guard holds (die set, unit size present and non-zero, bonus defined), exactly one row is appended at the end, with the given clock text as id, damage 0 and no roll; the form keeps die and bonus and its unit size falls back to the die's default. Otherwise nothing changes |
| Calculator.Calculator.Roll | src/App.tsx:63-86 | the rows keep their number and order, each becomes `RollRow` of its old value and its own draw, the form is untouched, and the roll time is recorded |
| Calculator.Calculator.DeleteRow | src/App.tsx:88-90 | rows become `WithoutId` of the old rows; the form and roll time do not change |
| Calculator.Calculator.SelectDiceType | src/App.tsx:92-100 | the form takes the die and its default unit size and keeps its bonus; the rows do not change |
| TotalStats.InitStats | src/TotalStats.tsx:24-32 | the dictionary has a line for exactly the player colours, all counters 0 |
| TotalStats.CountBattle | src/TotalStats.tsx:36-39 | every colour present in the battle gains exactly one battle and nothing else changes; the result is None exactly when a row's colour has no line |
| TotalStats.CountRows | src/TotalStats.tsx:41-47 | each colour's units, total size and total damage grow by its non-reroll rows' count, unit sizes and damages (a missing damage counting 0) |
| TotalStats.CalculatePlayerStats | src/TotalStats.tsx:20-51 | one line per player colour in the players' order, equal to the reference counters for that colour over the whole history; None exactly when some row's colour belongs to no player |
| TotalStats.BattlesAtMost | src/TotalStats.tsx:35-39 | a colour's battles never exceed the number of history entries |
| TotalStats.BattleCountsRerolls | src/TotalStats.tsx:35-39 | a battle in which the colour has any row, reroll or not, adds one battle |
| TotalStats.RerollRowsCountNothing | src/TotalStats.tsx:41-47 | reroll rows add nothing to units, total size or total damage |
| TotalStats.RerollOnlyBattle | src/TotalStats.tsx:35-47 | a battle of reroll rows only changes nothing but the battles counter |
| TotalStats.SumRowsUnitsTotal | src/TotalStats.tsx:41-47 | within one battle whose rows all belong to the distinct players, the players' units add up to its non-reroll rows |
| TotalStats.SumUnitsTotal | src/TotalStats.tsx:38-47 | when every row belongs to one of the distinct players, the players' units add up to the number of non-reroll rows in the history |
| TotalStats.AvgSize | src/TotalStats.tsx:116 | with units > 0 the average is the nearest integer to totalSize/units, halves rounded up: (2a-1)u <= 2t < (2a+1)u; with no units it is 0 |
| TotalStats.AvgSizeClosedForm | src/TotalStats.tsx:116 | the rounded average equals (2·totalSize + units) / (2·units) in integer division |
| TotalStats.AvgSizeExact | src/TotalStats.tsx:116 | a player whose sizes total k·units averages exactly k |
| TotalStats.Max | src/TotalStats.tsx:57 | `Math.max` of a non-empty list is a member of it and no member exceeds it; on an empty list it is -Infinity (None) |
| TotalStats.Column | src/TotalStats.tsx:57 | the column holds each player's chosen counter, in order |
| TotalStats.AvgColumn | src/TotalStats.tsx:67-69 | the column holds each player's rounded average, in order |
| TotalStats.BestValue | src/TotalStats.tsx:56-58 | on an empty table there is no best value (-Infinity); otherwise it is some player's counter and no player's counter exceeds it |
| TotalStats.IsBestValue | src/TotalStats.tsx:61-63 | a value is the best exactly when some player has it and no player has a larger one |
| TotalStats.IsBestValueIff | src/TotalStats.tsx:56-63 | a player's counter is highlighted exactly when no player has a larger one |
| TotalStats.BestAvgSize | src/TotalStats.tsx:66-70 | on an empty table there is no best average (-Infinity); otherwise it is some player's rounded average and no player's average exceeds it |
| TotalStats.IsBestAvgSize | src/TotalStats.tsx:73-76 | the average of given totals is the best exactly when some player has that average and no player has a larger one |
| TotalStats.IsBestAvgSizeIff | src/TotalStats.tsx:66-76 | a player's average is highlighted exactly when no player has a larger average |
| StartScreen.ColorSetSize | src/StartScreen.tsx:20-21 | a list never has more distinct colours than entries, and has as many exactly when no colour repeats |
| StartScreen.HasDuplicates | src/StartScreen.tsx:20-21 | the set-size test reports duplicates exactly when two entries are equal |
| StartScreen.ValidationError | src/StartScreen.tsx:19-26 | the error is "All players must have different colors" exactly when a colour repeats, and empty exactly when all differ |
| StartScreen.ColorSetup.constructor | src/StartScreen.tsx:9-10 | the screen opens with two distinct colours (red, blue) and no error |
| StartScreen.ColorSetup.ChangeColor | src/StartScreen.tsx:12-17 | only the entry at the index changes, the length is kept, and the error is revalidated against the new list |
| StartScreen.ColorSetup.AddPlayer | src/StartScreen.tsx:28-30 | "#000000" is appended at the end and the error is left as it was |
| StartScreen.ColorSetup.RemovePlayer | src/StartScreen.tsx:32-40 | at two players or fewer the list is unchanged and the error is "Minimum 2 players required"; otherwise exactly the entry at the index leaves, the rest keep their order, and the error is revalidated; the list never drops below two |
| StartScreen.ColorSetup.Start | src/StartScreen.tsx:42-53 | the game starts with the current colours exactly when there are at least two and all differ; otherwise the matching error is set; the colours never change |

## Left out

- Randomness, the clock and logging are parameters or dropped:
  - `Math.random()` (src/App.tsx:66) is the `draws` parameter of `Roll`, one value in [0, 1) per row;
  - `Date.now()` (src/App.tsx:46) is the `now` parameter of `AddRow`;
  - `toLocaleString` (src/App.tsx:85) is the `time` parameter of `Roll`;
  - `console.log` (src/App.tsx:74-80) is not modelled.
- JavaScript numbers are doubles. The model uses exact integers and reals, so double rounding in the damage formula and in `Math.round` is idealised away, and NaN is not modelled. The rounding can change a result: for a d20, unit size 5 and roll 2, doubles compute 5 * (1 - 18/22.5) as 0.9999999999999998, which floors to 0, while the exact value is 45/45 = 1 (worked out by hand, not executed).
- Rendering is not modelled: JSX, CSS classes, slider ticks and image paths. src/History.tsx, src/assets.ts and scripts/generate-icons.js are not part of this model (rendering and file I/O).
- The unit-size and bonus sliders' inline `onChange` setters are not modelled, because they are JSX. In the model the form changes only through `AddRow` and `SelectDiceType`.
- The flags `isAddingRow` and `isAddRowOpen` are not modelled, because no handler reads or writes them.
- A row's `diceType` is one of the six dice, not an arbitrary string: only the die buttons produce it.
- Calculator.Calculator.Roll: requires one draw per row. The source draws them itself.
- Dice.Damage: requires N, R and M to be at least 1, so that the formula's denominator is non-zero. Every row satisfies this, by the class invariant.
- TotalStats.CalculatePlayerStats: requires distinct player colours. The JavaScript dictionary would merge duplicate colours into one line; the start screen only starts with distinct colours.
- TotalStats.CalculatePlayerStats: `Object.values` returns lines in insertion order only when colour keys are not integer-like. `#rrggbb` colours never are.
- StartScreen.ColorSetup.ChangeColor: requires the index to be in range. The screen only passes the indices of existing entries; an out-of-range index would grow the JavaScript array with holes.
- Dice.ParseInt: models `parseInt` only on text without sign or leading blanks; JavaScript would also accept " 4" and "-4". It is applied only to the text after a die name's "d".
