/**
 * One session of the budget page: the participant list kept in session state
 * and the two files the page reads and writes. A file is a stored value,
 * `None` while the file does not exist; the values the widgets hold enter
 * the operations as parameters.
 */
module Session {
  import opened Store
  import opened Participants
  import opened Ledger
  import opened Allocation

  /** What the bottom of the page shows after one pass over it. */
  datatype Outcome =
    | EmptyState                                                 // "the list is empty" message
    | Rerun                                                      // the editor saved its table and restarted the page
    | Report(totals: map<string, real>, columns: seq<seq<real>>) // the split, per name and per row

  class BudgetSession {
    /** The participant list held in session state. */
    var participants: seq<Participant>
    /** The configuration file. */
    var config: Option<seq<Participant>>
    /** The expense history file. */
    var history: Option<seq<Expense>>

    /** The first pass of a session: the participant list is loaded from the configuration file. */
    constructor (configFile: Option<seq<Participant>>, historyFile: Option<seq<Expense>>)
      ensures participants == LoadConfig(configFile)
      ensures configFile.None? ==> participants == [Participant("Personne A", 2000.0), Participant("Personne B", 3000.0)]
      ensures config == configFile && history == historyFile
    {
      participants := LoadConfig(configFile);
      config := configFile;
      history := historyFile;
    }

    /** The "add participant" button: append the default newcomer, then save the list. */
    method AddParticipant()
      modifies this
      ensures participants == old(participants) + [Participant("Nouveau", 1500.0)]
      ensures config == Some(participants)
      ensures history == old(history)
      ensures SumIncome(participants) == SumIncome(old(participants)) + 1500.0
    {
      SumIncomeAppend(participants, Participant("Nouveau", 1500.0));
      participants := participants + [Participant("Nouveau", 1500.0)];
      config := Some(participants);
    }

    /**
     * The "remove participant" button: drop the last participant and save the
     * list; an empty list is left alone and nothing is saved.
     */
    method RemoveLastParticipant() returns (removed: bool)
      modifies this
      ensures removed <==> old(participants) != []
      ensures removed ==> participants + [old(participants)[|old(participants)| - 1]] == old(participants)
      ensures removed ==> config == Some(participants)
      ensures !removed ==> participants == old(participants) == [] && config == old(config)
      ensures history == old(history)
    {
      removed := |participants| > 0;
      if removed {
        assert participants[..|participants| - 1] + [participants[|participants| - 1]] == participants;
        participants := participants[..|participants| - 1];
        config := Some(participants);
      }
    }

    /**
     * The edit pass over the sidebar: participant `i` is overwritten only when
     * the name or the income in its inputs differs from the record, the total
     * income is accumulated over the records as they stand after the edit, and
     * the list is saved only when some record changed.
     */
    method EditPass(newNames: seq<string>, newIncomes: seq<real>) returns (total: real, changed: bool)
      requires |newNames| == |participants| && |newIncomes| == |participants|
      modifies this
      ensures |participants| == |old(participants)|
      ensures forall i :: 0 <= i < |participants| ==> participants[i] == Participant(newNames[i], newIncomes[i])
      ensures changed <==> participants != old(participants)
      ensures total == SumIncome(participants)
      ensures config == if changed then Some(participants) else old(config)
      ensures history == old(history)
    {
      var ps := participants;
      total := 0.0;
      changed := false;
      var i := 0;
      while i < |ps|
        invariant participants == old(participants) && config == old(config) && history == old(history)
        invariant 0 <= i <= |ps| == |participants|
        invariant forall k :: 0 <= k < i ==> ps[k] == Participant(newNames[k], newIncomes[k])
        invariant forall k :: i <= k < |ps| ==> ps[k] == participants[k]
        invariant changed <==> ps[..i] != participants[..i]
        invariant total == SumIncome(ps[..i])
      {
        var p := ps[i];
        if newNames[i] != p.nom || newIncomes[i] != p.salaire {
          ps := ps[i := Participant(newNames[i], newIncomes[i])];
          changed := true;
        }
        PrefixDiffers(ps, participants, i);
        SumIncomePrefix(ps, i);
        total := total + ps[i].salaire;
        i := i + 1;
      }
      assert ps[..i] == ps && participants[..i] == participants;
      if changed {
        participants := ps;
        config := Some(participants);
      }
    }

    /**
     * The quick-add form: with a positive amount and a non-empty description,
     * the history is loaded, the row `(now, desc, amount)` appended and the
     * result saved; otherwise nothing is written.
     */
    method QuickAddExpense(now: string, desc: string, amount: real) returns (added: bool)
      modifies this
      ensures added <==> amount > 0.0 && desc != ""
      ensures added ==> history == Some(LoadData(old(history)) + [Expense(now, desc, amount)])
      ensures !added ==> history == old(history)
      ensures participants == old(participants) && config == old(config)
    {
      var written := QuickAdd(LoadData(history), now, desc, amount);
      added := written.Some?;
      if added {
        assert written.value == LoadData(history) + [Expense(now, desc, amount)];
        history := written;
      }
    }

    /** Deleting the history file. */
    method ClearHistory()
      modifies this
      ensures history == None && LoadData(history) == []
      ensures participants == old(participants) && config == old(config)
    {
      history := None;
    }

    /**
     * The bottom of the page, given the total income of the edit pass and the
     * table the editor returns. With no stored rows or no positive total
     * income the empty state is shown. Otherwise an edited table that differs
     * from the loaded one is saved and the page restarts; an unchanged one is
     * split by income.
     */
    method Bilan(total: real, edited: seq<Expense>) returns (out: Outcome)
      requires total == SumIncome(participants)
      modifies this
      ensures participants == old(participants) && config == old(config)
      ensures LoadData(old(history)) == [] || total <= 0.0 ==> out == EmptyState && history == old(history)
      ensures LoadData(old(history)) != [] && total > 0.0 && edited != LoadData(old(history)) ==>
        out == Rerun && history == Some(edited) && LoadData(history) == edited
      ensures LoadData(old(history)) != [] && total > 0.0 && edited == LoadData(old(history)) ==>
        out.Report? && history == old(history)
      ensures out.Report? ==>
        && out.totals.Keys == NameSet(participants)
        && (forall n :: n in out.totals ==> out.totals[n] == Owed(participants, n, Spend(edited), total))
        && |out.columns| == |participants|
        && (forall j :: 0 <= j < |participants| ==> out.columns[j] == Column(edited, Share(participants[j], total)))
        && SumByName(out.totals, DistinctNames(participants)) == Spend(edited)
    {
      var df := LoadData(history);
      if df != [] && total > 0.0 {
        var written := EditorWrite(df, edited);
        if written.Some? {
          history := written;
          out := Rerun;
        } else {
          var totals, columns := Allocate(participants, edited, total);
          out := Report(totals, columns);
        }
      } else {
        out := EmptyState;
      }
    }
  }
}
