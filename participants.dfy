/**
 * The participant list of the expense split: `{nom, salaire}` records held in
 * session state and mirrored in the configuration file.
 */
module Participants {
  import opened Store

  /** One participant. The income is not bounded below: the input widget has no minimum. */
  datatype Participant = Participant(nom: string, salaire: real)

  /** load_config: the stored list when the file exists, the default list otherwise. */
  function LoadConfig(stored: Option<seq<Participant>>): (r: seq<Participant>)
    ensures stored.None? ==> r == [Participant("Personne A", 2000.0), Participant("Personne B", 3000.0)]
    ensures stored.Some? ==> r == stored.value
  {
    match stored
    case None => [Participant("Personne A", 2000.0), Participant("Personne B", 3000.0)]
    case Some(ps) => ps
  }

  /** total_revenus: the incomes added up in list order. */
  function SumIncome(ps: seq<Participant>): real
  {
    if ps == [] then 0.0 else SumIncome(ps[..|ps| - 1]) + ps[|ps| - 1].salaire
  }

  /** The set of names: the keys of the per-person totals. */
  function NameSet(ps: seq<Participant>): set<string>
  {
    if ps == [] then {} else NameSet(ps[..|ps| - 1]) + {ps[|ps| - 1].nom}
  }

  /** Every participant's name is a key of the totals. */
  lemma {:induction false} NameInNameSet(ps: seq<Participant>, i: int)
    requires 0 <= i < |ps|
    ensures ps[i].nom in NameSet(ps)
  {
    if i < |ps| - 1 {
      NameInNameSet(ps[..|ps| - 1], i);
    }
  }

  /** Appending a participant adds exactly their income to the total. */
  lemma SumIncomeAppend(ps: seq<Participant>, p: Participant)
    ensures SumIncome(ps + [p]) == SumIncome(ps) + p.salaire
  {
    assert (ps + [p])[..|ps|] == ps;
  }

  /** The income of a prefix grows by the next participant's income. */
  lemma SumIncomePrefix(ps: seq<Participant>, i: int)
    requires 0 <= i < |ps|
    ensures SumIncome(ps[..i + 1]) == SumIncome(ps[..i]) + ps[i].salaire
  {
    assert ps[..i + 1][..i] == ps[..i];
  }

  /** Two lists differ on a longer prefix exactly when they differ on the shorter one or at the next place. */
  lemma PrefixDiffers(a: seq<Participant>, b: seq<Participant>, i: int)
    requires 0 <= i < |a| && i < |b|
    ensures a[..i + 1] != b[..i + 1] <==> a[..i] != b[..i] || a[i] != b[i]
  {
    assert a[..i + 1] == a[..i] + [a[i]];
    assert b[..i + 1] == b[..i] + [b[i]];
    if a[..i + 1] == b[..i + 1] {
      assert a[..i] == a[..i + 1][..i];
    }
  }

  /** A name no participant bears is not in the set. */
  lemma {:induction false} NameNotInNameSet(ps: seq<Participant>, n: string)
    requires forall k :: 0 <= k < |ps| ==> ps[k].nom != n
    ensures n !in NameSet(ps)
  {
    if ps != [] {
      var init := ps[..|ps| - 1];
      assert forall k :: 0 <= k < |init| ==> init[k] == ps[k];
      NameNotInNameSet(init, n);
    }
  }
}
