/**
 * The income-proportional split: each participant's share of every expense
 * is their income over the total income; the totals are kept per name, so
 * participants who bear the same name share one total.
 */
module Allocation {
  import opened Participants
  import opened Store
  import opened Ledger

  /** part_pct: the participant's share, defined only for a positive total. */
  function Share(p: Participant, total: real): real
    requires total > 0.0
  {
    p.salaire / total
  }

  /** What one participant pays of a spend: the spend times their share. */
  function Part(p: Participant, spend: real, total: real): real
    requires total > 0.0
  {
    spend * Share(p, total)
  }

  /** The shares of all participants added up. */
  function SumShares(ps: seq<Participant>, total: real): real
    requires total > 0.0
  {
    if ps == [] then 0.0 else SumShares(ps[..|ps| - 1], total) + Share(ps[|ps| - 1], total)
  }

  /** The shares of the participants called `n` added up. */
  function NameShare(ps: seq<Participant>, n: string, total: real): real
    requires total > 0.0
  {
    if ps == [] then 0.0
    else NameShare(ps[..|ps| - 1], n, total) + (if ps[|ps| - 1].nom == n then Share(ps[|ps| - 1], total) else 0.0)
  }

  /**
   * What the totals dictionary holds for name `n` once the participants `ps`
   * have been visited: `spend * share` of each participant called `n`, added up.
   */
  function Owed(ps: seq<Participant>, n: string, spend: real, total: real): real
    requires total > 0.0
  {
    if ps == [] then 0.0
    else Owed(ps[..|ps| - 1], n, spend, total) + (if ps[|ps| - 1].nom == n then Part(ps[|ps| - 1], spend, total) else 0.0)
  }

  /** `spend * share` over all participants, whatever their names. */
  function OwedAll(ps: seq<Participant>, spend: real, total: real): real
    requires total > 0.0
  {
    if ps == [] then 0.0 else OwedAll(ps[..|ps| - 1], spend, total) + Part(ps[|ps| - 1], spend, total)
  }

  /** No name occurs twice. */
  ghost predicate Distinct(names: seq<string>)
  {
    names == [] || (Distinct(names[..|names| - 1]) && names[|names| - 1] !in names[..|names| - 1])
  }

  /** The names of the participants, each once, in order of first occurrence. */
  function DistinctNames(ps: seq<Participant>): (r: seq<string>)
    ensures Distinct(r)
    ensures forall n :: n in r ==> n in NameSet(ps)
  {
    if ps == [] then []
    else
      var d := DistinctNames(ps[..|ps| - 1]);
      if ps[|ps| - 1].nom in d then d else d + [ps[|ps| - 1].nom]
  }

  /** The per-name totals added up over the given names. */
  function SumByName(totals: map<string, real>, names: seq<string>): real
    requires forall n :: n in names ==> n in totals
  {
    if names == [] then 0.0 else SumByName(totals, names[..|names| - 1]) + totals[names[|names| - 1]]
  }

  /** The accumulated per-name amounts added up over the given names. */
  function SumOwed(names: seq<string>, ps: seq<Participant>, spend: real, total: real): real
    requires total > 0.0
  {
    if names == [] then 0.0
    else SumOwed(names[..|names| - 1], ps, spend, total) + Owed(ps, names[|names| - 1], spend, total)
  }

  /** The per-row column of one participant: `Montant * share`, row by row. */
  function Column(ledger: seq<Expense>, share: real): (r: seq<real>)
    ensures |r| == |ledger|
  {
    if ledger == [] then [] else Column(ledger[..|ledger| - 1], share) + [ledger[|ledger| - 1].montant * share]
  }

  /** A column of figures added up. */
  function Sum(xs: seq<real>): real
  {
    if xs == [] then 0.0 else Sum(xs[..|xs| - 1]) + xs[|xs| - 1]
  }

  // ---------------------------------------------------------------------------
  // Arithmetic steps, each in a context of its own

  lemma ShareScaled(p: Participant, total: real)
    requires total > 0.0
    ensures Share(p, total) * total == p.salaire
  {
  }

  lemma UnitFactor(x: real, t: real, s: real)
    requires t > 0.0 && x * t == s && s == t
    ensures x == 1.0
  {
    assert (x - 1.0) * t == 0.0;
  }

  lemma Distribute(spend: real, a: real, b: real)
    ensures spend * (a + b) == spend * a + spend * b
  {
  }

  // ---------------------------------------------------------------------------
  // Shares sum to one

  lemma {:induction false} SumSharesScaled(ps: seq<Participant>, total: real)
    requires total > 0.0
    ensures SumShares(ps, total) * total == SumIncome(ps)
  {
    if ps != [] {
      SumSharesScaled(ps[..|ps| - 1], total);
      ShareScaled(ps[|ps| - 1], total);
    }
  }

  /** With a positive total income, the shares of all participants sum to exactly one. */
  lemma SharesSumToOne(ps: seq<Participant>)
    requires SumIncome(ps) > 0.0
    ensures SumShares(ps, SumIncome(ps)) == 1.0
  {
    SumSharesScaled(ps, SumIncome(ps));
    UnitFactor(SumShares(ps, SumIncome(ps)), SumIncome(ps), SumIncome(ps));
  }

  // ---------------------------------------------------------------------------
  // Per-name totals

  /** A name's accumulated total is the spend times the sum of the shares of that name. */
  lemma {:induction false} OwedByName(ps: seq<Participant>, n: string, spend: real, total: real)
    requires total > 0.0
    ensures Owed(ps, n, spend, total) == spend * NameShare(ps, n, total)
  {
    if ps != [] {
      var init, last := ps[..|ps| - 1], ps[|ps| - 1];
      OwedByName(init, n, spend, total);
      Distribute(spend, NameShare(init, n, total), if last.nom == n then Share(last, total) else 0.0);
    }
  }

  /** `spend * share` summed over everyone is the spend times the sum of the shares. */
  lemma {:induction false} OwedAllScaled(ps: seq<Participant>, spend: real, total: real)
    requires total > 0.0
    ensures OwedAll(ps, spend, total) == spend * SumShares(ps, total)
  {
    if ps != [] {
      var init := ps[..|ps| - 1];
      OwedAllScaled(init, spend, total);
      Distribute(spend, SumShares(init, total), Share(ps[|ps| - 1], total));
    }
  }

  lemma {:induction false} OwedStep(ps: seq<Participant>, i: int, n: string, spend: real, total: real)
    requires total > 0.0 && 0 <= i < |ps|
    ensures Owed(ps[..i + 1], n, spend, total)
         == Owed(ps[..i], n, spend, total) + (if ps[i].nom == n then Part(ps[i], spend, total) else 0.0)
  {
    assert ps[..i + 1][..i] == ps[..i];
  }

  lemma {:induction false} OwedAbsent(ps: seq<Participant>, n: string, spend: real, total: real)
    requires total > 0.0 && n !in NameSet(ps)
    ensures Owed(ps, n, spend, total) == 0.0
  {
    if ps != [] {
      OwedAbsent(ps[..|ps| - 1], n, spend, total);
    }
  }

  /** Every name of a participant is among the distinct names. */
  lemma {:induction false} DistinctNamesCover(ps: seq<Participant>, n: string)
    requires n in NameSet(ps)
    ensures n in DistinctNames(ps)
  {
    if ps != [] && n != ps[|ps| - 1].nom {
      DistinctNamesCover(ps[..|ps| - 1], n);
    }
  }

  lemma {:induction false} SumOwedAppend(names: seq<string>, qs: seq<Participant>, p: Participant, spend: real, total: real)
    requires total > 0.0 && Distinct(names)
    ensures SumOwed(names, qs + [p], spend, total)
         == SumOwed(names, qs, spend, total) + (if p.nom in names then Part(p, spend, total) else 0.0)
  {
    assert (qs + [p])[..|qs|] == qs;
    if names != [] {
      var init := names[..|names| - 1];
      SumOwedAppend(init, qs, p, spend, total);
      assert names == init + [names[|names| - 1]];
    }
  }

  /** Summing the per-name totals over the distinct names counts every participant once. */
  lemma {:induction false} OwedPartition(ps: seq<Participant>, spend: real, total: real)
    requires total > 0.0
    ensures SumOwed(DistinctNames(ps), ps, spend, total) == OwedAll(ps, spend, total)
  {
    if ps != [] {
      var qs, p := ps[..|ps| - 1], ps[|ps| - 1];
      assert ps == qs + [p];
      var d := DistinctNames(qs);
      OwedPartition(qs, spend, total);
      SumOwedAppend(d, qs, p, spend, total);
      if p.nom !in d {
        if p.nom in NameSet(qs) {
          DistinctNamesCover(qs, p.nom);
        }
        var d' := d + [p.nom];
        assert d'[..|d'| - 1] == d;
        SumOwedAppend(d', qs, p, spend, total);
        OwedAbsent(qs, p.nom, spend, total);
      }
    }
  }

  lemma {:induction false} SumByNameOwed(totals: map<string, real>, names: seq<string>, ps: seq<Participant>, spend: real, total: real)
    requires total > 0.0
    requires forall n :: n in names ==> n in totals && totals[n] == Owed(ps, n, spend, total)
    ensures SumByName(totals, names) == SumOwed(names, ps, spend, total)
  {
    if names != [] {
      SumByNameOwed(totals, names[..|names| - 1], ps, spend, total);
    }
  }

  /**
   * Conservation: when each per-name total is what the allocation accumulates
   * for that name, the totals over the distinct names add up to the spend.
   */
  lemma AllocationConservesSpend(ps: seq<Participant>, spend: real, totals: map<string, real>)
    requires SumIncome(ps) > 0.0
    requires forall n :: n in NameSet(ps) ==> n in totals && totals[n] == Owed(ps, n, spend, SumIncome(ps))
    ensures SumByName(totals, DistinctNames(ps)) == spend
  {
    var total := SumIncome(ps);
    SumByNameOwed(totals, DistinctNames(ps), ps, spend, total);
    OwedPartition(ps, spend, total);
    OwedAllScaled(ps, spend, total);
    SharesSumToOne(ps);
  }

  // ---------------------------------------------------------------------------
  // Columns against totals

  /** Row `k` of a participant's column is that row's Montant times the share. */
  lemma {:induction false} ColumnAt(ledger: seq<Expense>, share: real, k: int)
    requires 0 <= k < |ledger|
    ensures Column(ledger, share)[k] == ledger[k].montant * share
  {
    if k < |ledger| - 1 {
      ColumnAt(ledger[..|ledger| - 1], share, k);
    }
  }

  /** A participant's column, summed over the rows, is the spend times their share. */
  lemma {:induction false} ColumnSum(ledger: seq<Expense>, share: real)
    ensures Sum(Column(ledger, share)) == Spend(ledger) * share
  {
    if ledger != [] {
      var init := ledger[..|ledger| - 1];
      ColumnSum(init, share);
      var c := Column(ledger, share);
      assert c[..|c| - 1] == Column(init, share);
      Distribute(share, Spend(init), ledger[|ledger| - 1].montant);
    }
  }

  ghost predicate UniqueName(ps: seq<Participant>, j: int)
    requires 0 <= j < |ps|
  {
    forall k :: 0 <= k < |ps| && k != j ==> ps[k].nom != ps[j].nom
  }

  /** The total of a name no one else bears is that one participant's `spend * share`. */
  lemma {:induction false} UniqueNameOwed(ps: seq<Participant>, j: int, spend: real, total: real)
    requires total > 0.0 && 0 <= j < |ps| && UniqueName(ps, j)
    ensures Owed(ps, ps[j].nom, spend, total) == spend * Share(ps[j], total)
  {
    var qs := ps[..|ps| - 1];
    if j == |ps| - 1 {
      assert forall k :: 0 <= k < |qs| ==> qs[k].nom != ps[j].nom by {
        forall k | 0 <= k < |qs| ensures qs[k].nom != ps[j].nom {
          assert qs[k] == ps[k];
        }
      }
      NameNotInNameSet(qs, ps[j].nom);
      OwedAbsent(qs, ps[j].nom, spend, total);
    } else {
      assert UniqueName(qs, j) by {
        forall k | 0 <= k < |qs| && k != j ensures qs[k].nom != qs[j].nom {
          assert qs[k] == ps[k];
        }
      }
      UniqueNameOwed(qs, j, spend, total);
    }
  }

  /**
   * The column of a participant whose name no one else bears, summed over the
   * rows, is the total accumulated for that name.
   */
  lemma UniqueColumnSum(ps: seq<Participant>, ledger: seq<Expense>, total: real, j: int)
    requires total > 0.0 && 0 <= j < |ps| && UniqueName(ps, j)
    ensures Sum(Column(ledger, Share(ps[j], total))) == Owed(ps, ps[j].nom, Spend(ledger), total)
  {
    ColumnSum(ledger, Share(ps[j], total));
    UniqueNameOwed(ps, j, Spend(ledger), total);
  }

  /**
   * The default pair: total income 5000, above the allocation gate, and a
   * spend of 100 splits as 40 and 60.
   */
  lemma DefaultSplit()
    ensures SumIncome(LoadConfig(None)) == 5000.0
    ensures Owed(LoadConfig(None), "Personne A", 100.0, SumIncome(LoadConfig(None))) == 40.0
    ensures Owed(LoadConfig(None), "Personne B", 100.0, SumIncome(LoadConfig(None))) == 60.0
  {
    var ps := LoadConfig(None);
    assert ps[..1] == [ps[0]] && ps[..1][..0] == [];
  }

  /**
   * What the card of participant `j` shows: the total of their name, which is
   * the spend times the shares of everyone bearing that name.
   */
  lemma CardAmount(ps: seq<Participant>, totals: map<string, real>, spend: real, total: real, j: int)
    requires total > 0.0 && 0 <= j < |ps|
    requires forall n :: n in NameSet(ps) ==> n in totals && totals[n] == Owed(ps, n, spend, total)
    ensures ps[j].nom in totals
    ensures totals[ps[j].nom] == spend * NameShare(ps, ps[j].nom, total)
  {
    NameInNameSet(ps, j);
    OwedByName(ps, ps[j].nom, spend, total);
  }

  /**
   * Two participants both called "Nouveau" with income 1500 merge into one
   * total: a spend of 100 gives that name 100, so each of the two cards shows
   * 100 and the cards add up to twice the spend.
   */
  lemma DuplicateNameCards()
    ensures var ps := [Participant("Nouveau", 1500.0), Participant("Nouveau", 1500.0)];
      SumIncome(ps) == 3000.0 && Owed(ps, "Nouveau", 100.0, 3000.0) == 100.0
  {
    var ps := [Participant("Nouveau", 1500.0), Participant("Nouveau", 1500.0)];
    assert ps[..1] == [ps[0]] && ps[..1][..0] == [];
  }

  // ---------------------------------------------------------------------------
  // The allocation loop

  /**
   * One turn of the allocation loop: adding the participant's part to the
   * total of their name keeps every total equal to what is owed over the
   * participants visited so far.
   */
  lemma AccumulateStep(ps: seq<Participant>, i: int, spend: real, total: real,
                       before: map<string, real>, after: map<string, real>)
    requires total > 0.0 && 0 <= i < |ps|
    requires after.Keys == before.Keys && ps[i].nom in before
    requires forall n :: n in before ==> before[n] == Owed(ps[..i], n, spend, total)
    requires after[ps[i].nom] == before[ps[i].nom] + Part(ps[i], spend, total)
    requires forall n :: n in after && n != ps[i].nom ==> after[n] == before[n]
    ensures forall n :: n in after ==> after[n] == Owed(ps[..i + 1], n, spend, total)
  {
    forall n | n in after
      ensures after[n] == Owed(ps[..i + 1], n, spend, total)
    {
      OwedStep(ps, i, n, spend, total);
    }
  }

  /**
   * The allocation loop: starting from a zero total per name, each participant
   * adds `spend * share` to the total of their name and gets a column of
   * `Montant * share`.
   */
  method Allocate(ps: seq<Participant>, ledger: seq<Expense>, total: real)
    returns (totals: map<string, real>, columns: seq<seq<real>>)
    requires total > 0.0
    ensures totals.Keys == NameSet(ps)
    ensures forall n :: n in totals ==> totals[n] == Owed(ps, n, Spend(ledger), total)
    ensures |columns| == |ps|
    ensures forall j :: 0 <= j < |ps| ==> columns[j] == Column(ledger, Share(ps[j], total))
    ensures total == SumIncome(ps) ==> SumByName(totals, DistinctNames(ps)) == Spend(ledger)
  {
    var spend := Spend(ledger);
    totals := map n | n in NameSet(ps) :: 0.0;
    columns := [];
    var i := 0;
    while i < |ps|
      invariant 0 <= i <= |ps|
      invariant totals.Keys == NameSet(ps)
      invariant forall n :: n in totals ==> totals[n] == Owed(ps[..i], n, spend, total)
      invariant |columns| == i
      invariant forall j :: 0 <= j < i ==> columns[j] == Column(ledger, Share(ps[j], total))
    {
      var p := ps[i];
      var share := Share(p, total);
      NameInNameSet(ps, i);
      ghost var before := totals;
      totals := totals[p.nom := totals[p.nom] + Part(p, spend, total)];
      AccumulateStep(ps, i, spend, total, before, totals);
      columns := columns + [Column(ledger, share)];
      i := i + 1;
    }
    assert ps[..i] == ps;
    if total == SumIncome(ps) {
      AllocationConservesSpend(ps, spend, totals);
    }
  }
}
