# GitHub Heatmap Streaker: a verified model of its scheduling core

GitHub Heatmap Streaker lets a user draw a 7 x N pixel pattern (or set a flat
daily quota) for the GitHub contribution graph. It then writes a small
painter script and a scheduled workflow into the target repository. On every
scheduled run the painter works out how many commits today's pixel asks for,
compares that with the commits already in today's git log and with the
records already in today's data file, and either does nothing, aborts, or
appends exactly the missing numbered records.

This project models that painter and the helpers around it in Dafny:

- `Painter`: the painter script embedded in `generator.py`. It covers date
  mapping, the configuration checks, the reconciliation chain, the commit
  count and the day file as a `DayFile` object whose lines grow in place.
- `Generator`: `save_all`'s validation, the next-Sunday start-date rule and
  the daily-quota matrix. It also has lemmas that what `save_all` writes
  drives the painter cell for cell.
- `Schedule`: a day of scheduled runs of the painter followed by the
  workflow's commit step.
- `PatternStore`: `main.py`'s blank, resize and load-and-normalise helpers.
- `SshUrl`: `main.py`'s repository SSH address parser.
- `Editor`: `tui.py`'s key-driven grid editor as a `Session` object, plus
  `_cycle` and `_value_to_level`.
- `Heatmap`: `gh_heatmap.py`'s Sunday-aligned matrix builder and the
  level map built from matched (date, level) pairs.
- `Json`: a pattern cell as `int()` sees it, shared by the painter and the
  loader.
- `Text`, `Calendar`, `Wrappers`: Python string built-ins, day numbers
  (day 0 is 1970-01-01, a Thursday; weekdays numbered as `date.weekday()`),
  and `Option`/`Result`.

Dates are integer day numbers. The clock, `git log`, `git add`, the random
record payload, HTTP, `urlparse` and curses are all inputs.

The model follows the code, including these points that are easy to
misread:

- The painter resolves the start date and checks the pattern before it
  queries the git log. An unreadable log therefore only matters once a
  quota is known.
- The overshoot check (`commits_today > need`) runs before the zero-quota
  no-op. A zero cell with a commit already made aborts with status 1, and
  a negative cell aborts even when no commit was made.
- Daily mode never finishes. Every day from the start date on asks for
  `daily_commit_count`, whatever `weeks` was.
- Only the first seven rows are compared for equal length, and more than
  seven rows is accepted.
- A failed `git add` is reported (status 1) after the records were
  appended. It is not detected before the write.

## Model

| member | source | states |
|---|---|---|
| `Painter.ModeOf` | github_streaker_tui/generator.py:175-177 | the painter runs in daily mode exactly when the mode, lower-cased, is "daily"; absent or any other mode means pattern mode |
| `Painter.ResolveTarget` | github_streaker_tui/generator.py:169-214 | stopping before the ledger is one of the start-date, configuration, not-started, zero-width or finished outcomes; a quota is only produced on or after the start date; a start date that is not an ISO date gives `BadStartDate` (status 1) exactly, and a valid one later than today gives `NotStarted` exactly |
| `Painter.Reconcile` | github_streaker_tui/generator.py:216-253 | a write happens exactly when the ledger is readable, today's commits are below the quota and the file holds fewer lines than the quota, and it continues from the existing line count up to the quota; otherwise an unreadable ledger gives `LedgerUnavailable`, more commits than the quota `Overshoot`, a quota of 0 or less `ZeroPixel`, commits equal to a positive quota `CommitsMet`, a file above the quota `FileOverfull` and a file at the quota `FileMet`, each exactly on its own condition |
| `Painter.Decide` | github_streaker_tui/generator.py:161-253 | a halt found while resolving the target is the run's outcome; once a quota is known, the run writes exactly when the ledger is readable and below the quota and the file holds fewer lines than the quota, and it then appends from the existing line count up to the quota; a missing pattern.json stops the run as `MissingPatternFile` (status 1) exactly, and an invalid start date as `BadStartDate` |
| `Painter.CountCommitsToday` | github_streaker_tui/generator.py:265-281 | the count is unavailable (never zero in its place) exactly when git is missing or exits non-zero; otherwise it is the number of non-blank output lines |
| `Painter.CountNonBlank` | github_streaker_tui/generator.py:280 | the non-blank line count never exceeds the number of lines |
| `Painter.CountNonBlankCountsPositions` | github_streaker_tui/generator.py:280 | the recursive count equals the size of the set of positions holding a non-blank line |
| `Painter.DayFile.CountLines` | github_streaker_tui/generator.py:236-239 | the existing count is the number of lines in the day file |
| `Painter.DayFile.AppendRecords` | github_streaker_tui/generator.py:248-253 | the file becomes its old lines followed by records numbered existing+1 .. need, each tagged with need |
| `Painter.Paint` | github_streaker_tui/generator.py:161-262 | a run reports the decided outcome, or `StageFailed` when `git add` fails after a write; the day file changes only by the decided records appended at its end and is untouched on every other path |
| `Painter.BeforeStartDoesNothing` | github_streaker_tui/generator.py:181-185 | before the start date the run ends with status 0 and no write, whatever the ledger and file say |
| `Painter.CellGovernsDay` | github_streaker_tui/generator.py:201-214 | in pattern mode day start + 7*col + row asks for `int(pattern[row][col])`, or 0 for a value `int()` rejects |
| `Painter.PastLastColumnFinished` | github_streaker_tui/generator.py:205-210 | from start + 7*width on, pattern mode reports the pattern finished |
| `Painter.ZeroWidthIsDone` | github_streaker_tui/generator.py:201-204 | a well-shaped pattern of width 0 ends with status 0 before any division or indexing |
| `Painter.DailyGoalEveryDay` | github_streaker_tui/generator.py:187-192 | with a positive daily goal every day from the start asks for that goal |
| `Painter.MalformedAbortsBeforeWriting` | github_streaker_tui/generator.py:188-200 | on or after the start date, a non-positive daily goal, fewer than seven rows, or unequal lengths among the first seven rows stop the run with status 1 and no write |
| `Painter.NoLedgerNoWrite` | github_streaker_tui/generator.py:216-219 | an unavailable commit count never leads to a write; once a quota is known it ends the run as `LedgerUnavailable` with status 1 |
| `Painter.OvershootAborts` | github_streaker_tui/generator.py:220-226 | more commits today than the quota aborts with status 1 whatever the file holds, including a quota of 0 |
| `Painter.WriteReachesTargetExactly` | github_streaker_tui/generator.py:241-253 | after a write the file holds exactly `need` lines; the new ones are the records existing+1 .. need |
| `Painter.SecondRunIsNoOp` | github_streaker_tui/generator.py:236-253 | after a write, a second run with the same ledger finds the file full and does nothing |
| `Generator.BuildDailyPattern` | github_streaker_tui/generator.py:72-75 | seven rows of max(1, weeks) cells, each equal to max(0, daily) |
| `Generator.CalculateStartDate` | github_streaker_tui/generator.py:44-51 | today unless pattern mode asks for the next Sunday; then the first Sunday on or after today, within six days, today itself when today is a Sunday |
| `Generator.SaveAll` | github_streaker_tui/generator.py:16-36 | succeeds exactly when the repository exists and either pattern mode has a 7-row matrix of equal-length rows or another mode has a positive daily count; it saves the given matrix, or the 7 x max(1, weeks) matrix of the count, and the start date rule |
| `Generator.SavedPatternDrivesPainter` | github_streaker_tui/generator.py:61-66 | what `save_all` writes in pattern mode makes the painter ask, on day start + 7*col + row, for exactly the saved cell |
| `Generator.SavedQuotaDrivesPainter` | github_streaker_tui/generator.py:29-32 | what `save_all` writes for a daily quota makes the painter ask for that quota on every day of the saved window, whatever the mode string |
| `Schedule.Tick` | github_streaker_tui/generator.py:118-129 | a scheduled run never removes file lines or commits |
| `Schedule.FullFileIsFixedPoint` | github_streaker_tui/generator.py:241-246 | once the day file holds `need` lines and the ledger sees at most `need` commits, further runs change nothing |
| `Schedule.AsWrittenDayGetsOneCommit` | github_streaker_tui/generator.py:120-129 | with the workflow as written, a pixel of 2 or more gets exactly one commit however many runs follow |
| `Schedule.AsWrittenThreeBecomesOne` | github_streaker_tui/generator.py:120-129 | the concrete case: a pixel of 3 with 48 runs in the day ends with one commit |
| `Schedule.PerRecordDayReachesTarget` | github_streaker_tui/generator.py:248-253 | committing each appended record on its own gives exactly `need` commits after the first run, and never more |
| `PatternStore.BlankPattern` | main.py:263-264 | seven rows of `weeks` zeros |
| `PatternStore.FitRow` | main.py:270-273 | a row cut or zero-padded to exactly `weeks` cells, keeping the cells it had below `weeks` |
| `PatternStore.ResizePattern` | main.py:267-279 | exactly seven rows of `weeks` cells; cell (r, c) is the input's where it has one and 0 elsewhere; an input already 7 x weeks comes back unchanged |
| `PatternStore.LoadExistingPattern` | main.py:227-260 | always 7 x max(1, weeks); a missing file, a read error or invalid JSON, a pattern that is not a 7-row list, or any row that is not a list gives the blank template; otherwise every cell is its integer value (0 where `int()` fails) and is 0 beyond the row |
| `SshUrl.SplitScp` | main.py:424-429 | a split is `user@host:path` cut at the first ':' and the first '@' before it (user without '@' or ':', host without ':'); there is none exactly when the address has no ':' or no '@' before its first ':' |
| `SshUrl.RepoPath` | main.py:440-442 | the path with its leading and trailing '/' stripped, less one trailing ".git" when it ends so; never longer than the raw path and never starting with '/' |
| `SshUrl.SplitAddress` | main.py:419-438 | `git@` addresses split as `SplitScp` does, always with user "git", and are malformed exactly when that split fails; `ssh://` addresses fail exactly when the host or path is missing and otherwise give (username or "git", hostname, path without leading '/'); any other address is unsupported |
| `SshUrl.FinishRemote` | main.py:440-451 | a stripped path without '/' is rejected as `NoOwnerRepo`, then an empty host as `NoHost`; a success keeps the host, defaults an empty user to "git", has a non-empty owner without '/', and owner + "/" + repo is the stripped path |
| `SshUrl.ParseStripped` | main.py:419-451 | on the stripped address: neither `git@` nor `ssh://` is unsupported, `git@` without ':' is malformed, and a success has a non-empty host and user and a non-empty owner without '/' |
| `SshUrl.ParseRepoSshUrl` | main.py:415-451 | the empty string, an unsupported form and a `git@` address without ':' are rejected; a success has a non-empty host and user and a non-empty owner without '/' |
| `SshUrl.ParseScpForm` | main.py:424-451 | a `git@` address that splits is rejected as `NoOwnerRepo` when its stripped path has no '/', succeeds exactly when the host is non-empty and the path has a '/', and then gives user "git", the host before the ':' and owner + "/" + repo equal to the stripped path |
| `SshUrl.ParseSshForm` | main.py:430-451 | an `ssh://` address without host or path is rejected; otherwise it is rejected as `NoOwnerRepo` exactly when its stripped path has no '/', and a success has the URL's user or "git", the URL's host, and owner + "/" + repo equal to the stripped path |
| `SshUrl.ScpAddressRoundTrip` | main.py:424-445 | `git@host:owner/repo.git` parses back into ("git", host, owner, repo) for a non-empty host without ':' and a non-empty owner without '/' |
| `Editor.Cycle` | github_streaker_tui/tui.py:109-114 | 0 → 3 → 6 → 9 → 0, any other value → 0; the result is always one of 0, 3, 6, 9 |
| `Editor.CycleReturnsAfterFour` | github_streaker_tui/tui.py:109-114 | four presses of `c` bring 0, 3, 6 or 9 back to itself |
| `Editor.ValueToLevel` | github_streaker_tui/tui.py:220-230 | the level is in 0..4, is 0 exactly for values <= 0 and is 4 from 9 on |
| `Editor.ValueToLevelMonotone` | github_streaker_tui/tui.py:220-230 | a larger value never gets a lower level |
| `Editor.KeyOf` | github_streaker_tui/tui.py:75-106 | q/Q quit; Ctrl+S (19) saves; KEY_UP, w, W move up; only KEY_DOWN and lower-case s move down; KEY_LEFT, a, A left; KEY_RIGHT, d, D right; digits 0-9 set their own value; space toggles; c/C cycles; anything else is unknown |
| `Editor.Moved` | github_streaker_tui/tui.py:84-95 | up, down, left and right move the cursor one cell that way and stay put at the grid's edge; the cursor stays inside the grid |
| `Editor.Edited` | github_streaker_tui/tui.py:96-104 | an edited cell is always 0..9; digit d writes d; space turns 0 into 5 and anything else into 0; c/C writes the next cycle value |
| `Editor.Step` | github_streaker_tui/tui.py:71-106 | one key on an editor snapshot keeps the grid's shape and the cursor inside it; after the session has ended keys change nothing |
| `Editor.StepEnds` | github_streaker_tui/tui.py:75-82 | on a running session a key ends it exactly when it is q/Q or Ctrl+S, with save set exactly for Ctrl+S; other keys keep the save flag |
| `Editor.StepByKey` | github_streaker_tui/tui.py:84-106 | on a running session a movement key only moves the cursor as `Moved` says; an edit key only rewrites the cell under the cursor as `Edited` says; any other key leaves the pattern and cursor alone |
| `Editor.Replay` | github_streaker_tui/tui.py:71-106 | replaying a key stream keeps the grid's shape and the cursor inside it |
| `Editor.ReplayIgnoresKeysAfterEnd` | github_streaker_tui/tui.py:75-82 | keys after the one that ended the session change nothing |
| `Editor.Session.constructor` | github_streaker_tui/tui.py:58-60 | the editor starts at the top-left cell with save false over the given pattern |
| `Editor.Session.HandleKey` | github_streaker_tui/tui.py:71-106 | the new state is `Step` of the old one: q/Q closes without saving and Ctrl+S closes with saving; a movement key only moves the cursor; an edit key changes only the cell under the cursor; any other key changes nothing; the grid shape and cursor bounds are kept |
| `Editor.Session.Run` | github_streaker_tui/tui.py:71-82 | the session ends exactly when a q/Q or Ctrl+S key arrives, after reading that first one, with save set exactly when it is Ctrl+S; the pattern, cursor and flags are those of replaying the keys read |
| `Editor.RunTui` | github_streaker_tui/tui.py:25-55 | rejects a pattern that is not 7 rows or has an empty first row (and, interactively, one with a row shorter than the first); otherwise returns a pattern of the same shape: unchanged and unsaved when not interactive, and otherwise the pattern and save flag of replaying the keys from the top-left cell, saved exactly when the first terminating key is Ctrl+S |
| `Heatmap.DaysSinceSunday` | github_streaker_tui/gh_heatmap.py:119-121 | the shift is in 0..6, is 0 exactly on Sundays, and going back by it lands on a Sunday |
| `Heatmap.BuildMatrix` | github_streaker_tui/gh_heatmap.py:56-71 | an empty level map is an error; otherwise 7 rows of `weeks` cells, cell (row, col) is the level of day start + 7*col + row (0 if none) for a Sunday start, and the latest date sits in the last column at row `DaysSinceSunday(latest)` |
| `Heatmap.Clamp` | github_streaker_tui/gh_heatmap.py:144 | a clamped level is in 0..4: levels in range are kept, negative ones become 0 and ones above 4 become 4 |
| `Heatmap.Collect` | github_streaker_tui/gh_heatmap.py:141-147 | every collected level is in 0..4 |
| `Heatmap.CollectHasDate` | github_streaker_tui/gh_heatmap.py:141-147 | a date is collected exactly when some valid match carries it |
| `Heatmap.CollectKeepsLastMatch` | github_streaker_tui/gh_heatmap.py:141-147 | a date is collected exactly when some valid match carries it, with the clamped level of the last such match |
| `Heatmap.FirstProductive` | github_streaker_tui/gh_heatmap.py:137-149 | levels are in 0..4; the result is empty exactly when no regular expression yields any data, and otherwise is the data of the first one that does |
| `Heatmap.ParseLevels` | github_streaker_tui/gh_heatmap.py:124-151 | the loop with its `continue` and `break` returns the data of the first regular expression that yields any, every level in 0..4 |
| `Heatmap.ShowRemoteHeatmap` | github_streaker_tui/gh_heatmap.py:32-53 | an empty user name, a failed fetch or no data gives []; otherwise a 7-row matrix of max(1, weeks) columns starting on a Sunday, cell (row, col) being the level of that start + 7*col + row, 0 where there is none |

## Findings

| source | as written | input that shows it | evidently intended | confidence | as-written member | corrected member |
|---|---|---|---|---|---|---|
| github_streaker_tui/generator.py:120-129 | the workflow commits all records the painter appended in a run as one commit, and the records stay in the day file, so the next run finds `existing == need` and stops | a pixel of 3 and 48 runs in a day: the day ends with 1 commit (the ledger sees the commits or not) | one commit per record, so that the day's commit count reaches the pixel value the painter compares it with (line 228) and numbers its records against (line 253) | medium, not executed | `Schedule.AsWrittenDayGetsOneCommit` | `Schedule.PerRecordDayReachesTarget` |

## Left out

- Reading pattern.json and JSON decoding are not modelled. The painter gets a `PatternFile` whose start date is `None` when it is not an ISO date. A `pattern` row that is not a list is not modelled. A failing `int(daily_commit_count)` is not modelled either.
- The clock, `utcnow()` and `random.choices` are inputs. Today is a parameter. A record's timestamp and payload are opaque strings given per index.
- `git log` is represented by its exit status and output lines. Python's `splitlines` and the `--since`/`--author` arguments are not modelled.
- `git add` is a success flag. `Schedule` models only the workflow's commit step; its YAML text, cron and `concurrency` group are not modelled.
- The day file is a sequence of lines. A last line without a trailing newline, which the first appended record would continue, is not modelled.
- `save_all`'s file writes (`_write_pattern_json`, `_write_workflow`, `_write_painter_script`, `_write_agreement`) are not modelled. Its printing and `int()` conversion errors on the configuration are not modelled either.
- `_load_existing_pattern`'s file reading is replaced by `PatternSource`. `int()` on a JSON value is represented by `Json.Cell`.
- `urlparse` is an input (`UrlParts`). Its own parsing, lower-casing of host names and ports are not modelled.
- Python's `lower()` is modelled on ASCII letters only. No other character lower-cases to one of the letters of "daily", so the mode test agrees.
- Dates are unbounded day numbers. Python's limit of years 1 to 9999 (an `OverflowError` beyond) is not modelled.
- Editor: curses drawing, colours, the message line and the terminal checks are not modelled. The terminal checks become the `interactive` flag. A `curses.error` in mid-session, which returns the partly edited pattern unsaved, is not modelled. A row shorter than the first makes the first redraw raise; this is modelled as the `RowShorterThanFirst` error.
- LoadExistingPattern: a pattern.json that is valid JSON but not an object, or a file that is not UTF-8, makes the source raise (`data.get` on a non-dict, `UnicodeDecodeError`) instead of returning the blank template; the model has no such source (`PatternSource`), so these crashes are not modelled.
- LoadExistingPattern and ResolveTarget: `int()` of a JSON infinity raises `OverflowError`, which neither `except (TypeError, ValueError)` catches, so the source crashes; the model's cells are integers or `Junk`, so this crash is not modelled.
- Editor.RunTui: requires that an interactive key stream contains q, Q or Ctrl+S, because the source's loop returns only then.
- Heatmap: the HTTP request, the regular expressions, ISO date parsing and ANSI rendering are not modelled. Each match arrives as a `Match` whose date is `None` when `fromisoformat` rejects it. The catch-all `except Exception` of `show_remote_heatmap` is not modelled.
- Schedule.Tick: its contract states only that runs never remove lines or commits; the lemmas beside it state what a day of runs reaches.
- The rest of main.py is not part of this model: prompts, configuration, git/ssh wrappers and `_diagnose_push_failure`.
