/** Loading the completion history: a chore name maps to the date string of
    its last completion, or to `None` (JSON `null`) when it was never done. */
module HistoryStore {

  import opened Wrappers

  type History = map<string, Option<string>>

  /** The set of chore names in a chore list. */
  function ChoreSet(chores: seq<string>): set<string>
  {
    set c | c in chores
  }

  /** The map the file yields: the decoded object, or the empty map when the
      file is missing or is not valid JSON (`None`). */
  function Decoded(file: Option<History>): History
  {
    match file
    case None => map[]
    case Some(m) => m
  }

  /** The backfilled history: each configured chore that is absent is added
      with `None`; every key already present, known or not, keeps its value. */
  function Backfill(h: History, chores: seq<string>): (r: History)
    ensures r.Keys == h.Keys + ChoreSet(chores)
    ensures forall k :: k in h ==> r[k] == h[k]
    ensures forall k :: k in r && k !in h ==> r[k] == None
  {
    h + map c | c in chores && c !in h :: None
  }

  /** A history that already holds every chore is left as it is by the
      backfill: saving such a history and loading it again gives it back. */
  lemma BackfillOfCompleteHistory(h: History, chores: seq<string>)
    requires ChoreSet(chores) <= h.Keys
    ensures Backfill(h, chores) == h
  {
  }

  /** `lade_verlauf`: start from the decoded file (or the empty map) and add
      every missing chore with `None`, one chore at a time. */
  method Load(file: Option<History>, chores: seq<string>) returns (h: History)
    ensures h == Backfill(Decoded(file), chores)
    ensures forall c :: c in chores ==> c in h
    ensures file.None? ==> h.Keys == ChoreSet(chores)
    ensures file.None? ==> forall k :: k in h ==> h[k] == None
  {
    var start := Decoded(file);
    h := start;
    for i := 0 to |chores|
      invariant h.Keys == start.Keys + ChoreSet(chores[..i])
      invariant forall k :: k in start ==> h[k] == start[k]
      invariant forall k :: k in h && k !in start ==> h[k] == None
    {
      assert chores[..i + 1] == chores[..i] + [chores[i]];
      if chores[i] !in h {
        h := h[chores[i] := None];
      }
    }
    assert chores[..|chores|] == chores;
  }

}
