/** The rows and battle records kept in the history (src/types.ts). */
module HistoryTypes {
  import opened Options

  /** A row as archived in a battle record, with its owner's colour and reroll flag. */
  datatype DamageRow = DamageRow(
    id: string,
    diceType: string,
    unitSize: int,
    bonus: int,
    rollResult: Option<int>,
    damage: Option<int>,
    color: string,
    isReroll: Option<bool>,
    rerollTime: Option<string>)

  /** One finished battle: its date and its rows in table order. */
  datatype HistoryEntry = HistoryEntry(date: string, rows: seq<DamageRow>)
}
