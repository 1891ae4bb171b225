/**
 * The state of the damage calculator screen (src/App.tsx): the ordered list
 * of rows entered into the battle, the entry form, and the time of the last
 * roll, with the handlers that replace them.
 */
module Calculator {
  import opened Options
  import opened Dice

  /** One unit entered into the battle (the `DamageRow` of App.tsx). */
  datatype DamageRow = DamageRow(
    id: string,
    diceType: DiceType,
    unitSize: int,
    bonus: int,
    rollResult: Option<int>,
    damage: Option<int>)

  /** The entry form, a `Partial<DamageRow>`: every field may be missing. */
  datatype NewRow = NewRow(diceType: Option<DiceType>, unitSize: Option<int>, bonus: Option<int>)

  /** The form the screen opens with: a d6, the default unit size for a d6, and no bonus. */
  function InitialNewRow(): (f: NewRow)
    ensures f.diceType == Some(D6) && f.unitSize == Some(3) && f.bonus == Some(0)
    ensures f.unitSize == Some(DefaultUnitSize(D6))
  {
    NewRow(Some(D6), Some(DefaultUnitSize(D6)), Some(0))
  }

  /**
   * The guard of `handleAddRow`: a die is chosen, the unit size is present and
   * non-zero (JavaScript truthiness), and the bonus is defined (0 is allowed).
   * A form it admits with a unit size that is not negative gives a
   * well-formed row, whatever the row's id.
   */
  predicate CanAdd(f: NewRow)
    ensures CanAdd(f) ==> f.diceType.Some? && f.unitSize.Some? && f.bonus.Some? && f.unitSize.value != 0
    ensures !CanAdd(f) ==> f.diceType.None? || f.unitSize.None? || f.bonus.None? || f.unitSize.value == 0
    ensures CanAdd(f) && f.unitSize.value >= 0 ==>
      forall id :: RowWellFormed(DamageRow(id, f.diceType.value, f.unitSize.value, f.bonus.value, None, Some(0)))
  {
    f.diceType.Some? && f.unitSize.Some? && f.unitSize.value != 0 && f.bonus.Some?
  }

  /** What every row of the battle satisfies: a positive unit size, a roll on the die, a damage within the unit. */
  predicate RowWellFormed(r: DamageRow) {
    r.unitSize >= 1
    && (r.rollResult.Some? ==> 1 <= r.rollResult.value <= DiceMaxValue(r.diceType))
    && (r.damage.Some? ==> 0 <= r.damage.value <= r.unitSize)
  }

  /**
   * The new value `handleRoll` gives one row for the draw `u` of
   * `Math.random()`: the roll on the die named by the row, and the damage
   * for that roll. The bonus plays no part in the damage.
   */
  function RollRow(row: DamageRow, u: real): (r: DamageRow)
    requires row.unitSize >= 1 && 0.0 <= u < 1.0
    ensures r.id == row.id && r.diceType == row.diceType
    ensures r.unitSize == row.unitSize && r.bonus == row.bonus
    ensures r.rollResult.Some? && 1 <= r.rollResult.value <= DiceMaxValue(row.diceType)
    ensures r.damage == Some(Damage(row.unitSize, r.rollResult.value, DiceMaxValue(row.diceType)))
    ensures 0 <= r.damage.value <= row.unitSize
    ensures RowWellFormed(r)
  {
    var diceMax := DiceMaxFromName(DiceName(row.diceType)).value;
    assert diceMax == DiceMaxValue(row.diceType);
    var roll := DrawRoll(u, diceMax);
    DamageBounds(row.unitSize, roll, diceMax);
    row.(rollResult := Some(roll), damage := Some(Damage(row.unitSize, roll, diceMax)))
  }

  /** The bonus of a row changes neither its roll nor its damage. */
  lemma DamageIgnoresBonus(row: DamageRow, u: real, bonus: int)
    requires row.unitSize >= 1 && 0.0 <= u < 1.0
    ensures RollRow(row.(bonus := bonus), u) == RollRow(row, u).(bonus := bonus)
  {
  }

  /** `rows.filter(row => row.id !== id)`. */
  function WithoutId(rows: seq<DamageRow>, id: string): (r: seq<DamageRow>)
    ensures |r| <= |rows|
    ensures forall i :: 0 <= i < |r| ==> r[i].id != id
    ensures forall x :: x in r <==> x in rows && x.id != id
  {
    if rows == [] then []
    else
      var rest := WithoutId(rows[..|rows| - 1], id);
      var last := rows[|rows| - 1];
      assert rows == rows[..|rows| - 1] + [last];
      if last.id == id then rest else rest + [last]
  }

  /** Filtering distributes over concatenation: the kept rows keep their relative order. */
  lemma {:induction false} WithoutIdAppend(a: seq<DamageRow>, b: seq<DamageRow>, id: string)
    ensures WithoutId(a + b, id) == WithoutId(a, id) + WithoutId(b, id)
  {
    if b == [] {
      assert a + b == a;
    } else {
      var b' := b[..|b| - 1];
      assert (a + b)[..|a + b| - 1] == a + b';
      WithoutIdAppend(a, b', id);
    }
  }

  /** Deleting an id that no row carries changes nothing. */
  lemma {:induction false} WithoutAbsentId(rows: seq<DamageRow>, id: string)
    requires forall i :: 0 <= i < |rows| ==> rows[i].id != id
    ensures WithoutId(rows, id) == rows
  {
    if rows != [] {
      WithoutAbsentId(rows[..|rows| - 1], id);
    }
  }

  /** Number of rows carrying `id`. */
  function CountId(rows: seq<DamageRow>, id: string): nat {
    if rows == [] then 0
    else CountId(rows[..|rows| - 1], id) + (if rows[|rows| - 1].id == id then 1 else 0)
  }

  /** Deleting removes exactly the rows carrying the id. */
  lemma {:induction false} WithoutIdLength(rows: seq<DamageRow>, id: string)
    ensures |WithoutId(rows, id)| == |rows| - CountId(rows, id)
  {
    if rows != [] {
      WithoutIdLength(rows[..|rows| - 1], id);
    }
  }

  /** The screen's state: the battle's rows, the entry form and the time of the last roll. */
  class Calculator {
    var rows: seq<DamageRow>
    var newRow: NewRow
    var lastRollTime: Option<string>

    /** Every row is well formed, and the form never holds a negative unit size. */
    predicate Valid()
      reads this
    {
      (forall i :: 0 <= i < |rows| ==> RowWellFormed(rows[i]))
      && (newRow.unitSize.Some? ==> newRow.unitSize.value >= 0)
    }

    /** The screen opens with no rows, no roll time, and the initial form. */
    constructor ()
      ensures Valid()
      ensures rows == [] && lastRollTime == None && newRow == InitialNewRow()
    {
      rows := [];
      lastRollTime := None;
      newRow := InitialNewRow();
    }

    /**
     * `handleAddRow`, where `now` is `Date.now().toString()`: when the form
     * passes the guard, one pending row (damage 0, no roll) is appended and the
     * form's unit size falls back to the die's default; otherwise nothing changes.
     */
    method AddRow(now: string)
      requires Valid()
      modifies this
      ensures Valid()
      ensures lastRollTime == old(lastRollTime)
      ensures CanAdd(old(newRow)) ==>
        && rows == old(rows) + [DamageRow(now, old(newRow).diceType.value, old(newRow).unitSize.value,
                                          old(newRow).bonus.value, None, Some(0))]
        && newRow == old(newRow).(unitSize := Some(DefaultUnitSize(old(newRow).diceType.value)))
      ensures !CanAdd(old(newRow)) ==> rows == old(rows) && newRow == old(newRow)
    {
      if CanAdd(newRow) {
        var row := DamageRow(now, newRow.diceType.value, newRow.unitSize.value, newRow.bonus.value, None, Some(0));
        rows := rows + [row];
        newRow := NewRow(newRow.diceType, Some(DefaultUnitSize(newRow.diceType.value)), newRow.bonus);
      }
    }

    /**
     * `handleRoll`, where `draws[i]` is the `Math.random()` value drawn for row
     * i and `time` the clock reading: every row is rolled in place, the list
     * keeps its length and order, and the roll time is recorded.
     */
    method Roll(draws: seq<real>, time: string)
      requires Valid()
      requires |draws| == |rows|
      requires forall i :: 0 <= i < |draws| ==> 0.0 <= draws[i] < 1.0
      modifies this
      ensures Valid()
      ensures |rows| == |old(rows)|
      ensures forall i :: 0 <= i < |rows| ==> rows[i] == RollRow(old(rows)[i], draws[i])
      ensures newRow == old(newRow) && lastRollTime == Some(time)
    {
      var updated: seq<DamageRow> := [];
      var i := 0;
      while i < |rows|
        invariant 0 <= i <= |rows|
        invariant |updated| == i
        invariant forall k :: 0 <= k < i ==> updated[k] == RollRow(rows[k], draws[k])
      {
        updated := updated + [RollRow(rows[i], draws[i])];
        i := i + 1;
      }
      rows := updated;
      lastRollTime := Some(time);
    }

    /** `handleDeleteRow`: every row carrying `id` leaves the list; the others stay, in order. */
    method DeleteRow(id: string)
      requires Valid()
      modifies this
      ensures Valid()
      ensures rows == WithoutId(old(rows), id)
      ensures newRow == old(newRow) && lastRollTime == old(lastRollTime)
    {
      var all, kept: seq<DamageRow> := rows, [];
      var i := 0;
      while i < |all|
        invariant 0 <= i <= |all|
        invariant kept == WithoutId(all[..i], id)
      {
        assert all[..i + 1][..i] == all[..i];
        if all[i].id != id {
          kept := kept + [all[i]];
        }
        i := i + 1;
      }
      assert all[..i] == all;
      forall k | 0 <= k < |kept|
        ensures RowWellFormed(kept[k])
      {
        assert kept[k] in rows;
      }
      rows := kept;
    }

    /** `handleDiceTypeSelect`: the form takes the die and its default unit size and keeps its bonus. */
    method SelectDiceType(t: DiceType)
      requires Valid()
      modifies this
      ensures Valid()
      ensures newRow == old(newRow).(diceType := Some(t), unitSize := Some(DefaultUnitSize(t)))
      ensures rows == old(rows) && lastRollTime == old(lastRollTime)
    {
      newRow := newRow.(diceType := Some(t), unitSize := Some(DefaultUnitSize(t)));
    }
  }
}
