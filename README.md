# 2 Master Maint Game: the prediction engines, modelled in Dafny

`app.py` is a dashboard for a game in which digits 0-9 are drawn one after
another. A digit of 5 or more is BIG and the others are SMALL. The
dashboard is trained once on an uploaded history of numbers. It then keeps
the digits the user enters (the live digits) and shows two predictions for
the next digit:

- **Engine 1** looks up the key of the last six live digits. The key is the
  six numbers' decimal strings joined together. Engine 1 answers BIG or
  SMALL only when every occurrence of that window in training was followed
  by a number of one size (the unanimity filter).
- **Engine 2** looks up the same key in a table of the numbers that followed
  each window, and predicts a most frequent one. It needs at least six live
  digits.

Each entered digit scores both engines (WIN when the predicted size is the
actual size, nothing when the engine said WAIT). The digit also updates
each engine's wins, losses, current streak and longest win and loss
streaks, and prepends a row to the history. RESET returns to the untrained
state.

The project has five modules:

- `Common` (`common.dfy`): sizes, outcomes, keys.
- `Training` (`training.dfy`): the two tables and the training loops.
- `Prediction` (`prediction.dfy`): the lookups.
- `Streaks` (`streaks.dfy`): the statistics update and its meaning over a
  whole run of results.
- `Dashboard` (`session.dfy`): the session state as a class whose methods
  are the dashboard's actions.

Training and the round update change state step by step in the source, so
they are methods with loops or field updates. Each is proved against
functions (`Engine1Db`, `Engine2Model`, `Tally`, `NextRound`) whose meaning
the lemmas state.

The model follows `app.py` in two places where a reader might expect
otherwise:

- Engine 1 keeps a key only when all its followers have one size. It does
  not take a majority vote.
- Keys are the concatenated decimal strings of the numbers.

With digits 0-9 the string keys are injective (`Common.KeyInjective`).
With multi-digit training numbers two windows can share a key
(`Common.KeyAmbiguous`). The model keeps the string keys, so both engines
behave as `app.py` does in that case too. A window of six live digits
still only matches training windows of six digits, because any other
number gives a longer key (`Common.ShortKeyIsDigits`). So the lookup
lemmas hold for any training numbers.

## Model

| member | source | states |
|---|---|---|
| Common.SizeOf | app.py:63 | a number is BIG exactly when it is at least 5 (the same rule as lines 136, 157 and 173) |
| Common.Judge | app.py:162-163 | a round is a WIN exactly when the predicted size equals the actual size |
| Common.IntToString | app.py:68 | `str(n)` has at least one character; it has exactly one when n is a digit 0-9, and then it is that digit's character |
| Common.Key | app.py:68 | `"".join(map(str, w))`: every number of the window contributes at least one character |
| Common.KeyOfDigits | app.py:68 | the key of a window of digits has one character per digit, the digit's character |
| Common.KeyInjective | app.py:68 | on windows of digits, two keys are equal exactly when the windows are equal |
| Common.ShortKeyIsDigits | app.py:68 | a window whose key has one character per number consists of digits 0-9 |
| Common.KeyConcat | app.py:68 | the key of two windows end to end is their keys joined |
| Common.KeyAmbiguous | app.py:68 | two different windows containing multi-digit numbers, [1,2,3,4,5,67] and [12,3,4,5,6,7], share the key "1234567" |
| Training.Group | app.py:66-70 | appending each position's label under its key (`defaultdict(list)`) never leaves an empty list |
| Training.PositionsSpec | app.py:67-68 | the positions recorded for a key are increasing, below the bound, and are exactly the positions carrying the key |
| Training.FollowersInOrder | app.py:69-70 | a key's list holds the label of each of its positions, in position order |
| Training.FollowersMembers | app.py:69-70 | a value is in a key's list exactly when some position of the key has that label |
| Training.GroupSpec | app.py:66-70 | after appending every position's label under its key, a key is present exactly when some position has it, and it holds that key's followers |
| Training.GroupInOrder | app.py:74-78 | a present key's list is non-empty, has one entry per position of the key, and entry j is the label of the key's j-th position |
| Training.GroupTotal | app.py:74-78 | the lengths of all lists add up to the number of appends |
| Training.DistinctIsOne | app.py:71 | `len(set(out)) == 1` holds exactly when the list is non-empty and all its entries equal the first |
| Training.Unanimous | app.py:71 | a key is kept exactly when its list is non-empty and all entries equal the first; every entry of a kept key's list equals its kept size |
| Training.GroupSizes | app.py:62-78 | grouping the sizes gives the keys of grouping the numbers, each list the sizes of the numbers' list, entry by entry |
| Training.UnanimousSizes | app.py:62-78 | a key kept by the filter on the sizes has as its size the size of every number grouped under it |
| Training.Engine1Db | app.py:62-71 | engine 1's keys are among engine 2's keys, and engine 1's size for a key is the size of every number engine 2 stored under it |
| Training.UnanimousGroupSpec | app.py:71 | after the unanimity filter a key is present exactly when it occurs and all its labels agree, and it maps to that label |
| Training.Engine2Model | app.py:74-78 | no list engine 2 stores is empty |
| Training.Engine1DbSpec | app.py:65-71 | engine 1 keeps exactly the window keys that occur and whose every occurrence was followed by one size, and maps each to that size |
| Training.Engine2ModelSpec | app.py:73-78 | engine 2 holds exactly the keys that occur; each list has one follower per occurrence, in occurrence order, and is never empty |
| Training.Engine2ModelTotal | app.py:75-78 | engine 2 stores one number per window: the lists' lengths add up to `len(nums) - 6` (0 when negative) |
| Training.Engine2Members | app.py:75-78 | a number is in a key's list exactly when it followed some occurrence of the key |
| Training.TableKeysLong | app.py:67-68 | every key of either table has at least six characters |
| Training.SmallTrainingEmpty | app.py:67 | with six or fewer training numbers there are no windows and both tables are empty |
| Training.TrainLogic | app.py:62-71 | the engine 1 loop over the sizes column builds exactly `Engine1Db(nums)` |
| Training.TrainSequence | app.py:73-78 | the engine 2 loop builds exactly `Engine2Model(nums)` |
| Training.TrainEngines | app.py:47-80 | without a `number` column training fails; otherwise it returns both tables trained on the cleaned numbers |
| Prediction.LastSix | app.py:104 | `live[-6:]` has six numbers, or all of them when there are fewer |
| Prediction.LastSixIsSuffix | app.py:104 | the trailing window is the end of the live digits |
| Prediction.Predict1 | app.py:104-105 | `dict.get` on the trailing key: a prediction exactly when the key is stored, and then the stored size |
| Prediction.MostFrequent | app.py:113 | the result is in the list and occurs at least as often as every other value of the list |
| Prediction.ScanMax | app.py:113 | scanning from position i keeps a value whose count is maximal among those seen, so it ends with a maximal one |
| Prediction.Predict2 | app.py:108-113 | engine 2 is WAIT exactly when there are fewer than six live digits or the key is not stored; otherwise it is a most frequent number of the stored list |
| Prediction.OccurrenceOfDigits | app.py:68 | for a window of at most six digits, a key occurrence in training is an occurrence of the window itself, whatever the training numbers |
| Prediction.Predict1OnDigits | app.py:104-105 | with six or more live digits and any training numbers, engine 1 predicts size s exactly when the last six digits occurred in training and every occurrence was followed by a number of size s |
| Prediction.Predict2OnDigits | app.py:108-113 | for live digits and any training numbers, engine 2 is WAIT exactly when there are fewer than six live digits or the last six never occurred; otherwise it predicts a number that followed an occurrence and is as frequent as every follower |
| Prediction.FewDigitsWait | app.py:104-113 | with fewer than six live digits both engines say WAIT |
| Prediction.SmallTrainingWait | app.py:65-113 | after training on six or fewer numbers both engines always say WAIT |
| Streaks.Tally | app.py:164-167 | a scored round counts the win or loss, extends the streak when the result repeats the last one (otherwise restarts it at 1) and records the result; the longest streak of that kind (`MaxOf`, the `max_win` or `max_loss` entry the result names at line 167) becomes the larger of its old value and the new streak, and the other longest streak is unchanged |
| Streaks.Replay | app.py:159-179 | the statistics after a run of results: wins plus losses is the number of results, no streak exceeds it, and `last_res` is unset exactly when there was no result |
| Streaks.ReplayAppend | app.py:164-167 | scoring one more result is one more Tally |
| Streaks.ReplayCounts | app.py:164 | wins and losses are the numbers of WIN and LOSS results scored |
| Streaks.ReplayStreak | app.py:165-166 | the streak is the length of the maximal run of equal results at the end, and `last_res` is the last result |
| Streaks.RunOfPrefix | app.py:165-167 | a run inside the earlier results is a run of the extended results too |
| Streaks.ReplayLongestRun | app.py:167 | `max_win` (`max_loss`) is the length of the longest run of WINs (LOSSes): no run is longer and one is that long |
| Streaks.MaxNeverDecreases | app.py:167 | the longest streaks never shrink as results are added |
| Dashboard.StatsOfReplay | app.py:159-179 | the statistics kept round by round over the history equal the replay of the engine's results in scoring order |
| Dashboard.DigitsOf | app.py:147 | `[int(d) for d in init]` gives one digit per character |
| Dashboard.InitKeyRoundTrip | app.py:147 | the key of the initialised digits is the typed string |
| Dashboard.Scored1 | app.py:159-163 | engine 1's result is present exactly when it predicted, and is WIN exactly when the predicted size is the actual size |
| Dashboard.Scored2 | app.py:170-175 | engine 2's result is present exactly when it predicted a number, and is WIN exactly when that number's size is the actual size |
| Dashboard.NextStats | app.py:160-167 | an engine that said WAIT leaves its statistics unchanged; a scored result counts one more win or loss and becomes `last_res` |
| Dashboard.NextRound | app.py:156-187 | the row for digit d: round number one past the history, the digit and its size, both predictions, a result exactly when the engine predicted (WIN exactly when the predicted size is the digit's size), and a streak of at least 1 exactly when the engine predicted |
| Dashboard.RoundShifts | app.py:182-187 | once a row is prepended, an older row still describes its own round |
| Dashboard.NewRoundFits | app.py:182-187 | the prepended row describes the round just played |
| Dashboard.HistoryExtends | app.py:182-188 | prepending the new row and appending the digit keeps every row describing its round |
| Dashboard.StepKeepsConsistent | app.py:156-188 | entering a digit keeps the live digits digits, the history fitting the digits and the statistics equal to the history's replay |
| Dashboard.StepKeepsSessionOk | app.py:156-188 | entering a digit in a trained session keeps the session invariant |
| Dashboard.Session.constructor | app.py:37-44 | a new session is untrained, with no digits, no history and zero statistics |
| Dashboard.Session.Train | app.py:83-97 | a successful training installs the tables trained on the numbers; a missing `number` column leaves the session untrained; nothing else changes |
| Dashboard.Session.Initialize | app.py:143-147 | six typed digits replace the live digits; any other length changes nothing |
| Dashboard.Session.EnterDigit | app.py:104-188 | both engines' current predictions (`Pred1` and `Pred2`, the lookups of lines 104-113 on the live digits) are scored against the digit's size, the statistics are tallied only for an engine that predicted, the row records the predictions, results and new streaks, the history grows by that row at the front, and the digit is appended |
| Dashboard.Session.Reset | app.py:98-197 | offered only in a trained session (an untrained page stops at line 98, before the button); the session returns to the untrained initial state |

## Left out

- The page layout, CSS, titles, colours and the prediction boxes (lines 9-34 and 117-140) are left out. They only display values the model computes.
- The digit buttons (lines 149-154) are left out. `EnterDigit` takes the digit as its argument.
- The training progress bar and its sleeps (lines 89-92) are left out. They are timing and display only.
- Reading the CSV and the `pandas` cleaning (lines 49-60) are left out. Training takes the upload's column names and the cleaned `number` column as inputs. Only the missing-column failure (lines 52-54) is modelled, as `MissingNumberColumn`.
- The win rates (lines 106 and 115) are left out. They are floating-point divisions for display.
- The HTML result snippets (lines 168 and 180) are left out. A row keeps the WIN/LOSS outcome, or None for "-". The history table and CSV download (lines 191-195) are left out too.
- Streamlit reruns and `st.stop()` are left out. The session is one object whose methods are the actions, and each method's `requires` says when the dashboard offers that action: `Initialize`, `EnterDigit` and `Reset` only once the tables are trained.
- Prediction.MostFrequent: `max(set(vals), key=vals.count)` returns a most frequent value that depends on set iteration order when there are ties. The model returns the first most frequent value in list order, and its contract promises only "a most frequent value".
- Dashboard.Session.Initialize: accepts ASCII digits '0'-'9' only. `int(d)` at line 147 also accepts the other Unicode decimal digits (such as '٣' or '３'), and the model leaves those out. For them `Dashboard.InitKeyRoundTrip` would not hold either, because `str(3)` is "3". `int(d)` on a non-digit raises an error, which the model leaves out as well.
