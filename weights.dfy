/** The weight calculator `berechne_gewichte` (house_duty.py:51-78). */
module Weights {

  import opened Wrappers
  import opened Config
  import opened HistoryStore

  function Max(a: int, b: int): int
  {
    if a >= b then a else b
  }

  /** The weight of a chore last done `days` days before today
      (house_duty.py:68-69). A negative `days` is a date in the future. */
  function DayWeight(days: int): (w: int)
    ensures MinWeight <= w <= BaseWeight
    ensures days <= 0 ==> w == MinWeight
    ensures 0 <= days <= 5 ==> w == Max(MinWeight, DecayPerDay * days)
    ensures days >= 5 ==> w == BaseWeight
  {
    var reduction := Max(0, BaseWeight - days * DecayPerDay);
    Max(MinWeight, BaseWeight - reduction)
  }

  /** The longer ago a chore was done, the heavier it weighs. */
  lemma DayWeightMonotone(d1: int, d2: int)
    requires d1 <= d2
    ensures DayWeight(d1) <= DayWeight(d2)
  {
  }

  /** `verlauf.get(duty)`: the stored entry, `None` for a missing key. */
  function LastDone(h: History, chore: string): Option<string>
  {
    if chore in h then h[chore] else None
  }

  /** Python truthiness of a stored entry: `None` and `""` are falsy. */
  predicate Falsy(e: Option<string>)
  {
    e == None || e == Some("")
  }

  /** The weight of one chore given the history, today's day ordinal and the
      date parser (`strptime` with '%Y-%m-%d', `None` where it raises
      ValueError). */
  function ChoreWeight(h: History, chore: string, today: int, parse: string -> Option<int>): (w: int)
    ensures MinWeight <= w <= BaseWeight
    ensures Falsy(LastDone(h, chore)) ==> w == BaseWeight
    ensures LastDone(h, chore).Some? && parse(LastDone(h, chore).value).None? ==> w == BaseWeight
    ensures !Falsy(LastDone(h, chore)) && parse(LastDone(h, chore).value).Some? ==>
              w == DayWeight(today - parse(LastDone(h, chore).value).value)
  {
    var last := LastDone(h, chore);
    if Falsy(last) then BaseWeight
    else match parse(last.value)
         case None => BaseWeight
         case Some(day) => DayWeight(today - day)
  }

  /** The weight list for a chore list: one weight per chore, in order. */
  function WeightList(chores: seq<string>, h: History, today: int, parse: string -> Option<int>): (ws: seq<int>)
    ensures |ws| == |chores|
    ensures forall i :: 0 <= i < |ws| ==> MinWeight <= ws[i] <= BaseWeight
  {
    seq(|chores|, i requires 0 <= i < |chores| => ChoreWeight(h, chores[i], today, parse))
  }

  /** `berechne_gewichte`: walk the chores in order and append each weight. */
  method ComputeWeights(chores: seq<string>, h: History, today: int, parse: string -> Option<int>)
    returns (ws: seq<int>)
    ensures ws == WeightList(chores, h, today, parse)
  {
    ws := [];
    for i := 0 to |chores|
      invariant |ws| == i
      invariant forall j :: 0 <= j < i ==> ws[j] == ChoreWeight(h, chores[j], today, parse)
    {
      var w := BaseWeight;
      var last := LastDone(h, chores[i]);
      if !Falsy(last) {
        var parsed := parse(last.value);
        if parsed.Some? {
          var days := today - parsed.value;
          var reduction := Max(0, BaseWeight - days * DecayPerDay);
          w := Max(MinWeight, w - reduction);
        }
      }
      ws := ws + [w];
    }
  }

  /** The weight of a chore depends on its own entry only: changing the entry
      of another key, to anything, leaves it as it was. */
  lemma OtherWeightsUnaffected(chores: seq<string>, h: History, k: string, e: Option<string>,
                               today: int, parse: string -> Option<int>)
    ensures forall i :: 0 <= i < |chores| && chores[i] != k ==>
              WeightList(chores, h[k := e], today, parse)[i] == WeightList(chores, h, today, parse)[i]
  {
  }

  /** A stored date that does not parse gives its chore the base weight. */
  lemma UnparsableDateIsBase(chores: seq<string>, h: History, k: string, s: string,
                             today: int, parse: string -> Option<int>)
    requires parse(s).None?
    ensures forall i :: 0 <= i < |chores| && chores[i] == k ==>
              WeightList(chores, h[k := Some(s)], today, parse)[i] == BaseWeight
  {
  }

  function Sum(ws: seq<int>): int
  {
    if ws == [] then 0 else ws[0] + Sum(ws[1..])
  }

  /** A list of weights within the bounds sums to between |ws| times the
      floor and |ws| times the base weight. */
  lemma {:induction false} SumBounds(ws: seq<int>)
    requires forall i :: 0 <= i < |ws| ==> MinWeight <= ws[i] <= BaseWeight
    ensures MinWeight * |ws| <= Sum(ws) <= BaseWeight * |ws|
  {
    if ws != [] {
      SumBounds(ws[1..]);
    }
  }

  /** The weights meet what `random.choices` demands of them: one per chore,
      each strictly positive, and a positive total for a non-empty list. */
  lemma WeightsFitChoices(chores: seq<string>, h: History, today: int, parse: string -> Option<int>)
    ensures |WeightList(chores, h, today, parse)| == |chores|
    ensures forall i :: 0 <= i < |chores| ==> WeightList(chores, h, today, parse)[i] > 0
    ensures |chores| > 0 ==> Sum(WeightList(chores, h, today, parse)) > 0
  {
    SumBounds(WeightList(chores, h, today, parse));
  }

}
