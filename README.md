# Study/game session tracker — a Dafny model

The tracker records four timestamps per session: study start, study end, game
start and game end. From them it derives the study and game durations in hours
and a weighted score, which is study hours minus twice the game hours. The
`Tracker` keeps one in-progress `current` session and an append-only `history`.
Each of its four recording actions stamps one field of `current` with the time
"now". The game-end action also archives `current` into `history` once all four
fields are set, and starts a fresh session. The summary lists the last five
archived sessions and totals the weighted score over the whole history.

The model is in two modules.

- `Sessions` (`sessions.dfy`) covers the session record as a datatype, with the
  derived quantities as functions.
  - A timestamp is an `int` count of seconds of wall-clock time in the tracker's
    fixed zone. All four fields are stamped with datetimes that share one tzinfo
    object, and Python subtracts such datetimes as wall-clock times. Integer
    local seconds therefore give the same differences.
  - Hours are `real`, so `(end - start) / 3600` is exact.
  - An unset field is `None`. A duration, score or display that touches an unset
    field yields `Err(...)`. This matches the source, which raises there: a
    TypeError on subtraction, an AttributeError on `strftime`.
- `Tracking` (`tracking.dfy`) covers the tracker.
  - `Record` and `Run` are a pure state machine over `State(history, current)`.
    The history invariants are proved about them.
  - `Tracker` is a class whose methods update `history` and `current` in place.
    Each of the four recording methods (`StudyStart`, `StudyEnd`, `GameStart`,
    `GameEnd`) promises its new state in full, and that this state equals
    `Record` applied to its old state.
  - `GameEndAsWritten` is the one state-changing method that does not follow
    `Record`. It models the source's game end as it stands, which never
    archives (see "## Findings").
  - The clock is a parameter: every recording method takes `now`.
  - `HistorySummary` changes no state. It returns what it would print: the
    displayed sessions and the total.

`is_complete` uses Python's `all`, which tests truthiness. Datetimes are always
truthy, so "all four fields set" is exactly `all(...)`.

## Model

| member | source | states |
|---|---|---|
| `Sessions.Fresh` | app.py:5-9 | a new session has all four fields unset and is not complete |
| `Sessions.IsComplete` | app.py:11-12 | complete iff every one of the four fields is set |
| `Sessions.Stamp` | app.py:37-50 | stamping a field sets it to the given time and leaves the other three fields unchanged |
| `Sessions.Hours` | app.py:14-18 | hours times 3600 equals the elapsed seconds; negative iff end precedes start; zero iff they are equal |
| `Sessions.Elapsed` | app.py:14-18 | defined iff both endpoints are set, otherwise the None-operand error; when defined, hours times 3600 equals end minus start |
| `Sessions.StudyDuration` | app.py:14-15 | defined iff study start and end are set; hours times 3600 equals study end minus study start, with no sign check |
| `Sessions.GameDuration` | app.py:17-18 | defined iff game start and end are set; hours times 3600 equals game end minus game start |
| `Sessions.WeightedScore` | app.py:20-21 | defined iff the session is complete; equals study hours minus twice game hours; in seconds, study span minus twice game span |
| `Sessions.Readable` | app.py:23-26 | succeeds iff all four fields are set, otherwise the None-formatting error; shows the four times in study-then-game order |
| `Sessions.Latest` | app.py:37-50 | a last stamping of a field exists iff some stamping targets it; it is one whose time no later stamping of that field overrides |
| `Sessions.StampAllGet` | app.py:37-50 | after any sequence of actions, each field holds its last stamped time, or its old value if never stamped; fields are overwritten, never cleared |
| `Sessions.CompleteIffAllStamped` | app.py:11-12 | from a fresh session, complete iff each of the four fields was stamped at least once, in any order and any number of times |
| `Sessions.RestartedStudyUsesSecondStart` | app.py:37-43 | two study starts and then a study end: the duration uses only the second start |
| `Sessions.NinetyMinutesIsOneAndAHalfHours` | app.py:14-15 | 5400 seconds of study is exactly 1.5 hours |
| `Sessions.MorningScenarioScoresZero` | app.py:14-21 | study 09:00-11:00 and game 11:00-12:00 give 2.0, 1.0 and a score of 0.0 |
| `Tracking.TotalScore` | app.py:61 | the total is defined iff every history entry is complete, otherwise the None-operand error |
| `Tracking.TotalScoreSnoc` | app.py:61 | appending a complete session adds its weighted score to the total |
| `Tracking.TotalScoreConcat` | app.py:61 | the total of a concatenation is the sum of the totals of its parts |
| `Tracking.TwoSessionTotal` | app.py:61 | sessions scoring 3.0 and -1.5 total 1.5 |
| `Tracking.Recent` | app.py:59 | the listed entries are the last min(5, length) entries of the history, in insertion order |
| `Tracking.RecentAllComplete` | app.py:59-60 | every listed entry is complete, so displaying it cannot fail |
| `Tracking.TotalCoversWholeHistory` | app.py:59-61 | the total is that of the older entries plus that of the listed ones, so it covers the whole history |
| `Tracking.Initial` | app.py:29-31 | a new tracker has an empty history and a current session with nothing set |
| `Tracking.Record` | app.py:37-55 | an action stamps one field of current; history grows, by exactly the stamped session, iff the action is the game end and the stamped session is complete; then current becomes fresh, otherwise it is the stamped session |
| `Tracking.RunSnoc` | app.py:37-55 | a run extended by one action ends in that action's transition |
| `Tracking.RunExtendsHistory` | app.py:49-55 | over any run, the old history is a prefix of the new one; every added entry is complete; at most one entry is added per game-end action |
| `Tracking.RunKeepsHistoryComplete` | app.py:52-54 | if every history entry is complete, every run keeps it so |
| `Tracking.NoDoubleArchive` | app.py:52-54 | right after an archival, a further game end archives nothing |
| `Tracking.PartialSessionStaysCurrent` | app.py:37-55 | study start, study end, game end with no game start: nothing is archived, and the partial session stays current |
| `Tracking.Tracker.constructor` | app.py:29-31 | empty history, fresh current session, invariant established |
| `Tracking.Tracker.StudyStart` | app.py:37-39 | sets only `current.studyStart` to now; history unchanged; new state is `Record` of the old one |
| `Tracking.Tracker.StudyEnd` | app.py:41-43 | sets only `current.studyEnd` to now; history unchanged; new state is `Record` of the old one |
| `Tracking.Tracker.GameStart` | app.py:45-47 | sets only `current.gameStart` to now; history unchanged; new state is `Record` of the old one |
| `Tracking.Tracker.GameEnd` | app.py:49-55 | sets `current.gameEnd`; if now complete, appends it to history and resets current, otherwise keeps the partial session; invariant kept |
| `Tracking.Tracker.GameEndAsWritten` | app.py:49-51 | as written: sets `current.gameEnd`, then fails formatting the bound method, so history never grows |
| `Tracking.Tracker.HistorySummary` | app.py:57-62 | lists the display form of the last five (or fewer) sessions in order; the total equals the weighted-score sum over the whole history |
| `Tracking.ReadableAll` | app.py:59-60 | the listing loop yields, in order, the display form of each session |
| `Tracking.SumWeightedScores` | app.py:61 | the summing loop's result is the total of the weighted scores |
| `Tracking.FullCycle` | app.py:49-55 | after the four actions on a new tracker, the intended game end has archived one session and the as-written one none |

## Left out

- The command loop and the module-level tracker (app.py:64-83) are console input and command-name dispatch. Each of the five action commands (`study_start`, `study_end`, `game_start`, `game_end`, `history`) calls one `Tracker` method. `quit` ends the loop, and any other input is rejected there without reaching the tracker.
- All printed messages (app.py:39, 43, 47, 51, 55, 58, 62) are left out. So is the `:.2f` rendering of the total.
- `datetime.now` with the `America/New_York` zone (app.py:32-35) is a foreign clock. Every recording method takes `now` as a parameter instead.
- Sessions.Readable: returns the four timestamps to show rather than the 12-hour clock text that `strftime("%I:%M %p")` renders from them.
- Sessions.Hours: the exact quotient is not Python's float `total_seconds() / 3600`. Float rounding and sub-second parts of timestamps are not modelled.
- A session is a value rather than a mutable object. After archiving, the tracker always replaces `current` with a new object, so no archived session is ever mutated through an alias. The value model therefore loses nothing observable.
- In the source, an exception escaping an action ends the whole program, because the command loop catches nothing. The model returns the error instead.

## Findings

| source | as written | input that shows it | evidently intended | confidence | as-written member | corrected member |
|---|---|---|---|---|---|---|
| app.py:51 | the confirmation formats `self.game_end`, the tracker's own bound method, which has no `strftime`; the AttributeError fires after `current.game_end` is set and before the completeness check | `study_start`, `study_end`, `game_start`, then `game_end`: the session is complete but never archived | format `self.current.game_end`, then archive the complete session (app.py:52-55) | high; not executed | `Tracking.Tracker.GameEndAsWritten` | `Tracking.Tracker.GameEnd` |

`Tracking.FullCycle` applies the same four actions to a new tracker, once with each game-end method. It proves that the corrected method archives one session and the as-written method archives none. The rest of the model uses the corrected method.
