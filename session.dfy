/** The session runner `fuehre_programm_aus` (house_duty.py:87-114): load the
    history, compute the weights, take the drawn chore, ask for confirmation
    and record today's date on "j". */
module Session {

  import opened Wrappers
  import opened Config
  import opened HistoryStore
  import opened Weights

  predicate IsAsciiUpper(c: char)
  {
    'A' <= c <= 'Z'
  }

  /** `str.lower()` on ASCII letters; every other character is kept. */
  function Lower(s: string): (r: string)
    ensures |r| == |s|
    ensures forall i :: 0 <= i < |s| && !IsAsciiUpper(s[i]) ==> r[i] == s[i]
    ensures forall i :: 0 <= i < |s| && IsAsciiUpper(s[i]) ==>
              r[i] as int == s[i] as int + 32 && 'a' <= r[i] <= 'z'
  {
    seq(|s|, i requires 0 <= i < |s| =>
      if IsAsciiUpper(s[i]) then (s[i] as int - 'A' as int + 'a' as int) as char else s[i])
  }

  /** The answer confirms the chore when its lower-case form is "j". */
  function IsConfirmation(answer: string): (b: bool)
    ensures b <==> answer == "j" || answer == "J"
  {
    Lower(answer) == "j"
  }

  /** The confirmation branch: on "j"/"J" the drawn chore's entry becomes
      today's date string and the history is saved; on any other answer the
      history is left as it was and nothing is saved. */
  method Confirm(h: History, chosen: string, answer: string, todayStr: string)
    returns (h': History, saved: bool)
    ensures saved <==> answer == "j" || answer == "J"
    ensures saved ==> chosen in h' && h'[chosen] == Some(todayStr)
    ensures saved ==> h'.Keys == h.Keys + {chosen}
    ensures forall k :: k in h && k != chosen ==> k in h' && h'[k] == h[k]
    ensures !saved ==> h' == h
  {
    if IsConfirmation(answer) {
      h' := h[chosen := Some(todayStr)];
      saved := true;
    } else {
      h' := h;
      saved := false;
    }
  }

  /** Recording today's date makes the chore's weight the floor today and
      its decayed weight `n` days later; the other chores keep theirs. */
  lemma ConfirmedChoreDecays(chores: seq<string>, h: History, chosen: string, todayStr: string,
                             today: int, n: int, parse: string -> Option<int>)
    requires todayStr != "" && parse(todayStr) == Some(today)
    ensures ChoreWeight(h[chosen := Some(todayStr)], chosen, today + n, parse) == DayWeight(n)
    ensures ChoreWeight(h[chosen := Some(todayStr)], chosen, today, parse) == MinWeight
    ensures forall i :: 0 <= i < |chores| && chores[i] != chosen ==>
              WeightList(chores, h[chosen := Some(todayStr)], today, parse)[i]
              == WeightList(chores, h, today, parse)[i]
  {
    OtherWeightsUnaffected(chores, h, chosen, Some(todayStr), today, parse);
  }

  /** Without a usable history file every chore gets the base weight. */
  lemma FreshStartIsUniform(chores: seq<string>, today: int, parse: string -> Option<int>)
    ensures forall i :: 0 <= i < |chores| ==>
              WeightList(chores, Backfill(Decoded(None), chores), today, parse)[i] == BaseWeight
  {
  }

  /** The kitchen was cleaned today and nothing else was ever done: the
      kitchen weighs the floor and every other chore the base weight. */
  lemma KitchenCleanedToday(todayStr: string, today: int, parse: string -> Option<int>)
    requires todayStr != "" && parse(todayStr) == Some(today)
    ensures WeightList(Chores, Backfill(map["Küche putzen" := Some(todayStr)], Chores), today, parse)
            == [MinWeight, BaseWeight, BaseWeight, BaseWeight, BaseWeight]
  {
  }

  /** One run of the program: `file` is the decoded history file (`None` when
      missing or corrupt), `pick` the index `random.choices` drew, `answer`
      the line typed at the prompt. Returns the weights shown, the chore
      proposed, the history afterwards and whether it was saved. */
  method Run(file: Option<History>, today: int, todayStr: string, parse: string -> Option<int>,
             pick: nat, answer: string)
    returns (ws: seq<int>, chosen: string, h: History, saved: bool)
    requires pick < |Chores|
    ensures ws == WeightList(Chores, Backfill(Decoded(file), Chores), today, parse)
    ensures forall i :: 0 <= i < |ws| ==> ws[i] > 0
    ensures chosen == Chores[pick]
    ensures saved <==> answer == "j" || answer == "J"
    ensures h == if saved then Backfill(Decoded(file), Chores)[chosen := Some(todayStr)]
                 else Backfill(Decoded(file), Chores)
    ensures ChoreSet(Chores) <= h.Keys && Backfill(h, Chores) == h
  {
    var loaded := Load(file, Chores);
    ws := ComputeWeights(Chores, loaded, today, parse);
    chosen := Chores[pick];
    h, saved := Confirm(loaded, chosen, answer, todayStr);
    BackfillOfCompleteHistory(h, Chores);
  }

  /** The history a run ends with, written out and loaded by the next run,
      comes back unchanged. */
  method RunThenReload(file: Option<History>, today: int, todayStr: string,
                       parse: string -> Option<int>, pick: nat, answer: string)
    returns (h: History, reloaded: History)
    requires pick < |Chores|
    ensures reloaded == h
    ensures forall c :: c in Chores ==> c in reloaded
  {
    var ws, chosen, saved;
    ws, chosen, h, saved := Run(file, today, todayStr, parse, pick, answer);
    reloaded := Load(Some(h), Chores);
  }

}
