/**
 * The expense ledger: `(Date, Description, Montant)` rows kept in the history
 * file, extended by the quick-add form and replaced by the table editor.
 */
module Ledger {
  import opened Store

  /** One row of the history; the date is the text the form stamped on it. */
  datatype Expense = Expense(date: string, description: string, montant: real)

  /** load_data: the stored rows when the file exists, no rows otherwise. */
  function LoadData(stored: Option<seq<Expense>>): (r: seq<Expense>)
    ensures stored.None? ==> r == []
    ensures stored.Some? ==> r == stored.value
  {
    match stored
    case None => []
    case Some(rows) => rows
  }

  /** The sum of the Montant column. */
  function Spend(ledger: seq<Expense>): real
  {
    if ledger == [] then 0.0 else Spend(ledger[..|ledger| - 1]) + ledger[|ledger| - 1].montant
  }

  /**
   * Quick-add: the ledger to write back, or None when the gate (a positive
   * amount and a non-empty description) rejects the input and nothing is
   * written.
   */
  function QuickAdd(ledger: seq<Expense>, now: string, desc: string, amount: real): (r: Option<seq<Expense>>)
    ensures r.Some? <==> amount > 0.0 && desc != ""
    ensures r.Some? ==> |r.value| == |ledger| + 1 && r.value[..|ledger|] == ledger
    ensures r.Some? ==> r.value[|ledger|] == Expense(now, desc, amount)
  {
    if amount > 0.0 && desc != "" then Some(ledger + [Expense(now, desc, amount)]) else None
  }

  /** An accepted quick-add raises the total spend by exactly the amount entered. */
  lemma {:induction false} QuickAddSpend(ledger: seq<Expense>, now: string, desc: string, amount: real)
    requires amount > 0.0 && desc != ""
    ensures QuickAdd(ledger, now, desc, amount).Some?
    ensures Spend(QuickAdd(ledger, now, desc, amount).value) == Spend(ledger) + amount
  {
    var r := ledger + [Expense(now, desc, amount)];
    assert r[..|r| - 1] == ledger;
  }

  /**
   * The table editor: the ledger to write back, or None when the edited
   * table equals the loaded one and nothing is written.
   */
  function EditorWrite(loaded: seq<Expense>, edited: seq<Expense>): (r: Option<seq<Expense>>)
    ensures r.Some? <==> edited != loaded
    ensures r.Some? ==> r.value == edited
  {
    if loaded != edited then Some(edited) else None
  }

  /** After the editor's write (if any), loading the history gives exactly the edited table. */
  lemma EditorRoundTrip(stored: Option<seq<Expense>>, edited: seq<Expense>)
    ensures var w := EditorWrite(LoadData(stored), edited);
      LoadData(if w.Some? then w else stored) == edited
  {
  }
}
