# house_duty in Dafny

A model of the chore picker `house_duty.py`: it keeps, per household chore,
the date it was last done (`haus_duty_verlauf.json`), weights every chore by
how long ago it was done, draws one chore at random by those weights, and on
the answer "j" records today's date for it.

The model covers the three pieces of logic in the program:

- **History loading** (`lade_verlauf`): the decoded file, or nothing when the
  file is missing or corrupt, is backfilled so that every configured chore is
  a key; entries already present, including unknown keys, are kept.
- **Weight calculation** (`berechne_gewichte`): per chore,
  `max(MIN_GEWICHT, BASIS_GEWICHT - max(0, BASIS_GEWICHT - d * REDUKTIONS_FAKTOR_PRO_TAG))`
  where `d` is the number of days since the stored date; a falsy (`None`, `""`)
  or unparsable entry gives `BASIS_GEWICHT`.
- **Confirmation** (the end of `fuehre_programm_aus`): an answer whose lower
  case is "j" sets the drawn chore's entry to today's date string and saves;
  any other answer changes nothing.

Modules: `Wrappers` (Option), `Config` (the constants and the chore list),
`HistoryStore` (history type, backfill, loading), `Weights` (weight formula,
weight list, the loop that builds it, the `random.choices` precondition) and
`Session` (answer check, confirmation, one whole run).

Inputs the program takes from the outside world are parameters: the decoded
history file as `Option<History>` (`None` for a missing or corrupt file),
today as an integer day ordinal together with today's date string, the date
parser as a function `string -> Option<int>` (`None` where `strptime` raises
`ValueError`), the index drawn by `random.choices`, and the line typed at the
prompt. The chore list is passed to `Load` and `ComputeWeights` as an
argument; `Run` passes `Config.Chores`, as the program passes `HAUS_DUTYS`.

## Model

| member | source | states |
|---|---|---|
| HistoryStore.Backfill | house_duty.py:38-43 | the result's keys are the old keys plus every configured chore; every old key keeps its value (unknown keys too); every added key maps to `None` |
| HistoryStore.BackfillOfCompleteHistory | house_duty.py:38-43 | a history that already holds every chore is unchanged by the backfill, so the map a save writes loads back as the same map |
| HistoryStore.Load | house_duty.py:26-43 | the loop's result equals the backfill of the decoded file; every chore is a key; for a missing or corrupt file the keys are exactly the chores, all `None` |
| Weights.DayWeight | house_duty.py:67-69 | the weight for `d` days lies in [1, 10]; it is 1 for `d <= 0` (done today or dated in the future), `max(1, 2d)` for `0 <= d <= 5`, and 10 for `d >= 5` |
| Weights.DayWeightMonotone | house_duty.py:68-69 | the weight is non-decreasing in the number of days since completion |
| Weights.ChoreWeight | house_duty.py:57-73 | a chore's weight lies in [1, 10]; an absent, `None` or empty entry gives 10; an entry that does not parse gives 10; a parsed date gives the day formula of today minus that date |
| Weights.WeightList | house_duty.py:54-75 | the list has one weight per chore and each weight lies in [1, 10]; its definition pairs the i-th weight with the i-th chore (the contract states only length and bounds) |
| Weights.ComputeWeights | house_duty.py:51-78 | the list the append loop builds equals the weight list of the chores |
| Weights.OtherWeightsUnaffected | house_duty.py:56-75 | changing the entry of one key, to any value, leaves the weight of every other chore unchanged |
| Weights.UnparsableDateIsBase | house_duty.py:61-73 | a stored date that fails to parse gives its chore the base weight |
| Weights.SumBounds | house_duty.py:84 | weights within [1, 10] sum to between `n` and `10n` for `n` weights |
| Weights.WeightsFitChoices | house_duty.py:80-85 | the weights handed to `random.choices` match the chores one to one, are all positive and have a positive total when there is a chore |
| Session.Lower | house_duty.py:106 | lower-casing keeps the length, maps each ASCII upper-case letter to its lower-case letter and keeps every other character |
| Session.IsConfirmation | house_duty.py:106-108 | the answer confirms exactly when it is "j" or "J" |
| Session.Confirm | house_duty.py:106-114 | on "j"/"J" the drawn chore maps to today's date string, no other key changes and the history is saved; on any other answer the history is unchanged and not saved |
| Session.ConfirmedChoreDecays | house_duty.py:108-110 | after confirmation the chore weighs 1 today and the day formula of `n` days `n` days later; every other chore keeps its weight |
| Session.FreshStartIsUniform | house_duty.py:32-43 | with a missing or corrupt file every chore gets the base weight |
| Session.KitchenCleanedToday | house_duty.py:57-69 | with only "Küche putzen" done today, the weights are 1, 10, 10, 10, 10 |
| Session.Run | house_duty.py:87-114 | one run shows the weight list of the loaded history (all positive), proposes the drawn chore, and ends with the history confirmed or unchanged according to the answer; that history holds every chore and is a fixed point of the backfill |
| Session.RunThenReload | house_duty.py:45-49 | the history a run ends with, once saved and loaded again by the next run, comes back as the same map |

## Left out

- Reading and writing the JSON file (`open`, `json.load`, `json.dump`): I/O; the model takes the decoded map, or `None` for a missing or corrupt file, and `Confirm` reports whether the program would save.
- Console output (`print`) and `input()`: I/O; the answer is a parameter.
- `random.choices`: a nondeterministic library call; the model takes the drawn index and proves only the call's precondition on the weights (`WeightsFitChoices`), not the distribution.
- `datetime.now()`, `strptime` and `strftime`: clock and library calls; today is an integer day ordinal plus its date string, dates are read by an injected parser, and `ConfirmedChoreDecays` and `KitchenCleanedToday` both assume the parser reads today's non-empty date string back as today.
- `defaultdict` default-on-read: replaced by a plain map plus the explicit backfill; the weight calculation's `get` sees the same values either way.
- JSON values other than strings and `null`: the model's history holds only strings or `None`. In the source, a falsy non-string value under a chore (`0`, `false`, `[]`, `{}`) fails the truthiness test and gets the base weight without error. A value under an unknown key is never read and is written back as it was. Only a truthy non-string value under a chore raises an uncaught `TypeError`, in `strptime`.
- A top-level JSON value that is not an object: not modelled; `defaultdict(..., value)` treats it like `dict(value)`. A top-level `[]` or `""` gives an empty history with no error. A list whose items are iterables of length 2 with hashable first items gives a history. An iterable item of another length, or a top-level non-empty string, raises `ValueError`. A non-iterable item, an unhashable key, or a top-level number, boolean or `null` raises `TypeError`. Neither error is caught, because only `JSONDecodeError` is handled.
- Crashing I/O errors: `input()` raising `EOFError`, and an `OSError` from `open` other than `FileNotFoundError` (such as `PermissionError`), end the run unsaved; the model has no aborted run.
- A file that cannot be decoded in the locale's preferred encoding (`UnicodeDecodeError`, not caught by the source): not modelled.
- Session.Lower: lower-cases ASCII letters only, whereas `str.lower()` covers all of Unicode; no other character lower-cases to "j", so the confirmation decision is the same.
