# Trailing-command extractor of the Properties-from-Description plugin

The Kanboard plugin “Properties from Description” runs after a task is
created. It reads the task's description, right-trims it and walks it from
the last line upwards. It stops at the first line that is not a valid
command. Valid command lines set the task's due date, start date, priority
or color, add tags, or request subtasks. The description is then cut at the
"\r\n" break just above the topmost line that was applied, so the failing
line and everything above it stay. The buffered subtasks are created in text
order, and the task row is saved once.

The model has three layers.

- **Values.** `Strings` models PHP's string built-ins. `DateTime` models the
  date-token resolver and `Commands` the command grammar and effects.
  `Scanner` states the reverse scan, both by offsets (`ScanText`) and by
  lines (`Lines`, `ScanLines`). `Extraction` puts the scan together with the
  dispatcher.
- **Imperative code.** This layer follows the source. `Task` is a class whose
  fields the commands update, and `Stores` holds the tag, subtask and task
  stores. `ParseLine` and `RunCommand` model `parseLine`.
  `FindLineBeginningRev` keeps the backward loop with its early return.
  `ScanBack`, `FlushSubtasks` and `ParseDescription` form `parseDescription`:
  a `while` loop with a `break`, then a reverse flush loop, then the single
  update call. Each method is proved against the value layer.
- **Worked example.** `Example` proves a concrete description: a text line
  followed by `\due 3d`, `\p 2` and `\tag urgent`. It holds for every task
  state, for every project whose priority bounds are 1..5, and for every
  calendar whose `strtotime` answers the request for three days ahead.

Inputs that come from outside the core are parameters:

- the clock facts: today's day of month, and the lengths of this month and
  next month;
- `strtotime` and `removeTimeFromTimestamp`, as functions in `Calendar`;
- the project's priority bounds, the color lookup (a map) and the current
  user (`Env`);
- the tag list of the task (`Stores.tags`).

Two consequences of the code are easy to miss.

- The priority is stored as the parameter's text (`Plugin.php:153`), not as
  its integer value.
- A day of month that has not passed yet but does not exist in the current
  month fails. It is not moved to next month (`Plugin.php:253-255`).
  `DateTime.NoRolloverOfShortMonth` states this.

## Model

| member | source | states |
|---|---|---|
| Scanner.LineBegin | Plugin.php:178-186 | the line start is 0 when no "\r\n" ends in 1..offset, else one past the last such break, so it is at most offset+1 and no break ends from there to offset |
| Scanner.LineBeginUnique | Plugin.php:178-186 | these two properties determine the line start uniquely |
| Scanner.LineBeginOfPrefix | Plugin.php:178-186 | the line start depends only on the characters up to the offset |
| Scanner.FindLineBeginningRev | Plugin.php:178-186 | the backward loop with early return finds the last break ending in 1..offset (result at most offset+1), or 0 when there is none |
| Scanner.LineBeginExample | Plugin.php:176 | in "foo\r\nbar" the line holding index 7 (and index 4) starts at 5; index 3 lies on the first line |
| Scanner.ScanText | Plugin.php:25-45 | the text kept by the reverse scan is always a prefix of the trimmed description |
| Scanner.ScanStopsAtFailure | Plugin.php:31-45 | when a non-empty text is kept, its last line does not parse in the final state |
| Scanner.ScanTextLastFails | Plugin.php:37-41 | helper: a text whose last line fails is kept whole, and the state is unchanged |
| Scanner.ScanTextLastApplies | Plugin.php:37-44 | helper: when the last line applies, the scan goes on from the text before that line and its break, in the new state |
| Scanner.ScanTextStops | Plugin.php:33-41 | with the cursor at n, a failing line ending at n stops the scan and keeps desc[..n] |
| Scanner.ScanTextAdvances | Plugin.php:33-44 | with the cursor at n, an applied line ending at n moves the cursor to max(begin-2, 0) |
| Scanner.ScanTextStep | Plugin.php:31-44 | one loop step: failure stops with the current state, success advances with the new state |
| Scanner.ScanTextDropsLine | Plugin.php:33-44 | a text, then "\r\n", then one more line without a line feed that applies, is scanned as the text before the break, in the new state |
| Scanner.ScanTextKeepsLine | Plugin.php:33-41 | a single line without a line feed that fails is kept, and nothing changes |
| Scanner.LinesJoin | Plugin.php:33-35 | the lines cut at each "\r\n", joined back with "\r\n", give the text |
| Scanner.Lines | Plugin.php:33-35 | a text has at least one line; `LinesJoin` and `LinesOfJoin` are its inverse properties |
| Scanner.LinesHaveNoBreak | Plugin.php:180-183 | no isolated line contains a "\r\n" break |
| Scanner.LinesOfJoin | Plugin.php:33-35 | cutting a join of break-free lines gives the lines back |
| Scanner.ApplyBottomUp | Plugin.php:31-45 | applying lines from the last to the first succeeds only if the last line applies first |
| Scanner.ScanLines | Plugin.php:31-45 | the scan by lines keeps at most all the lines; `ScanLinesStopsAtFirstFailure` states what it drops |
| Scanner.ApplyBottomUpStep | Plugin.php:31-45 | helper: applying lines bottom-up first applies the last line, then the lines above it |
| Scanner.ScanLinesStopsAtFirstFailure | Plugin.php:31-45 | the lines removed all parsed, applied bottom-up, giving the final state; the line just above them fails in that state |
| Scanner.LinesLast | Plugin.php:33-35 | helper: the last line of a text starts where the line-start search says |
| Scanner.LinesSplitLast | Plugin.php:33-35 | helper: a text with a break has the lines before the last break, then its last line |
| Scanner.ScanLinesLastFails | Plugin.php:37-41 | helper: a list of lines whose last line fails is kept whole |
| Scanner.ScanLinesLastApplies | Plugin.php:37-44 | helper: a list of lines whose last line applies is scanned on from the lines above it |
| Scanner.ScanByLinesEmpty | Plugin.php:29-31 | the empty text is one empty line, which fails, so it is kept and nothing changes |
| Scanner.ScanByLines | Plugin.php:29-45 | the scan by offsets keeps exactly the lines the scan by lines keeps, joined with "\r\n", with the same final state |
| Scanner.NoTrailingCommand | Plugin.php:31-45 | a text whose last line fails is kept whole, and nothing changes |
| Extraction.Extract | Plugin.php:23-45 | the kept description is a prefix of the right-trimmed description and of the original |
| Extraction.DispatchIs | Plugin.php:37 | helper: the scan's line dispatcher is `parseLine` for this task |
| Extraction.EmptyLineFails | Plugin.php:75 | an empty line is never a command |
| Extraction.SubtaskOf | Plugin.php:105-121 | a line requests at most one subtask; only a subtask command does, titled with its parameter, for this task and user |
| Extraction.SubtasksIn | Plugin.php:49-52 | the lines request at most one subtask each |
| Extraction.TagsOf | Plugin.php:96-103 | a line adds tags exactly when it is a tag command, and no tag it adds contains a space |
| Extraction.TagsHaveNoSpace | Plugin.php:96-103 | no tag that the lines add (`TagsIn`, the lines' tags top to bottom) contains a space |
| Extraction.LineEffect | Plugin.php:91-121 | a successful line appends its subtask (if any) to the buffer and puts its tags (if any) in front of the tag list |
| Extraction.DispatchDispatchesLines | Plugin.php:71-167 | the command dispatcher changes the buffer and the tags only in that way, line by line |
| Extraction.BottomUpEffects | Plugin.php:31-53 | after the bottom-up run the reversed buffer lists the subtasks in top-to-bottom text order, and the tags of higher lines come first |
| Extraction.ExtractionByLines | Plugin.php:25-57 | the kept description is the first lines of the trimmed text; the dropped lines all parsed, bottom-up, into the final state; the line above them fails; subtasks come out in text order and tags of higher lines come first |
| Extraction.ExtractScansLines | Plugin.php:25-45 | helper: the extraction is the scan by lines of the right-trimmed description |
| Extraction.DroppedEffects | Plugin.php:31-53 | helper: lines that all apply bottom-up leave their subtasks reversed in the buffer and their tags in front |
| Extraction.DroppedLinesEffects | Plugin.php:25-54 | for a task with no buffered subtasks, the subtasks created are those of the dropped lines in text order, and the dropped lines' tags go in front of the old list |
| Extraction.NoTrailingCommand | Plugin.php:25-45 | a description whose last line is not a valid command only loses its trailing whitespace |
| Commands.SplitLineShape | Plugin.php:74-88 | a split line is backslash + keyword (no space) + either nothing or one space and the parameter |
| Commands.SplitLine | Plugin.php:74-88 | a line splits exactly when it has at least 2 characters and starts with a backslash; the keyword has no space, and keyword and parameter fit after the backslash |
| Commands.SplitLineOf | Plugin.php:80-88 | conversely, backslash + keyword without spaces + space + any parameter splits back into that keyword and parameter |
| Commands.KindOf | Plugin.php:91-165 | every alias the switch accepts is one to five lower-case letters |
| Commands.ParseCommand | Plugin.php:74-91 | a line is a command exactly when it splits and its keyword is an alias; the command has that alias's kind and the split's parameter |
| Commands.Canonical | Plugin.php:91-163 | each command kind has a spelling without spaces that the alias table maps back to it |
| Commands.RenderRoundTrip | Plugin.php:74-91 | parsing the line written for a command gives the command back, for every parameter including ones with spaces |
| Commands.CommandShape | Plugin.php:74-91 | only a line of at least 2 characters, starting with a backslash and with a known keyword, can succeed |
| Commands.EmptyParameter | Plugin.php:96-161 | an empty parameter fails for tag, subtask, due, prio and color; for start it is read as "now" |
| Commands.OnlyItsFieldChanges | Plugin.php:91-166 | a successful command changes only its own field: the date, priority or color it sets, the tag list (new tags first) or the buffer (appended at the end) |
| Commands.PriorityRule | Plugin.php:139-154 | the priority is set exactly when the parameter is numeric and within priority_start..priority_end, and it is then the parameter's text |
| Commands.PriorityNumerals | Plugin.php:142-152 | for the numeral of any 64-bit integer, success holds exactly inside the inclusive bounds, so priority_start-1 and priority_end+1 fail |
| Commands.ColorRule | Plugin.php:155-163 | a color is set exactly when the lookup finds a non-empty id, and that id is stored |
| Commands.FindColor | Plugin.php:160-161 | an unknown name or id finds the empty string; a non-empty result is the id the lookup gives for the parameter |
| Commands.StartParam | Plugin.php:132-134 | the parameter of `\start` is never empty after the default, and a non-empty one is kept |
| Commands.Apply | Plugin.php:92-166 | a command that succeeds had a non-empty parameter unless it is `\start`; a color that succeeds is known to the lookup; a due date that succeeds resolved |
| Commands.ApplyLine | Plugin.php:71-167 | a line that succeeds has at least 2 characters, starts with a backslash and parses as a command |
| DateTime.DaysOffset | Plugin.php:263 | a token that matches `/^\+?(\d+)d$/` has at least 2 characters and is not numeric |
| DateTime.DaysOffsetShape | Plugin.php:263 | every match is an optional plus, digits, `d` and an optional final line feed, and the offset is the value of those digits |
| DateTime.DaysOffsetEnds | Plugin.php:263 | helper: a match ends in `d` or in a line feed |
| DateTime.DropFinalNewlineShape | Plugin.php:263 | helper: the token is the text `$` sees, followed by the line feed it dropped, if any |
| DateTime.DropPlusShape | Plugin.php:263 | helper: the token is its optional plus followed by the rest |
| DateTime.DigitsThenDShape | Plugin.php:263 | helper: a body that matches `(\d+)d` is its digits followed by `d` |
| DateTime.DaysTokenParts | Plugin.php:263 | helper: how a `DaysToken` is put together |
| DateTime.DropFinalNewline | Plugin.php:263 | the text the `$` anchor sees is the token itself, or the token without a final line feed exactly when it ends in one |
| DateTime.DateQuery | Plugin.php:195-271 | a token is rejected before any `strtotime` request only when it is numeric; a month-day request is for day 1..31, within the chosen month, and for this month exactly when the day has not passed; a days-ahead request is made only for a non-keyword token with that day offset; the fallback request is the lower-cased token, made only when no other strategy applies |
| DateTime.ParseDateTime | Plugin.php:195-271 | a timestamp results exactly when a request is made and `strtotime` answers it; for a days-ahead request it is the start of the day `strtotime` gives, otherwise `strtotime`'s answer |
| DateTime.KeywordQuery | Plugin.php:201-241 | every keyword starts with a letter and asks for now, tomorrow or a next weekday |
| DateTime.CaseInsensitive | Plugin.php:197 | the decision is the same for a token and its lower-cased form |
| DateTime.KeywordsFirst | Plugin.php:201-244 | helper: a keyword is resolved by the table, before the numeric and `+Nd` strategies |
| DateTime.DayOfMonthRule | Plugin.php:243-260 | a numeric token is accepted exactly when its value is 1..31 and exists in the month chosen by comparing it with today (this month, or next month for a passed day) |
| DateTime.DayOfMonth | Plugin.php:244-259 | a day of month is accepted exactly when it is 1..31 and exists in the month chosen by comparing it with today; the request is for that day, in this month exactly when the day has not passed |
| DateTime.NoRolloverOfShortMonth | Plugin.php:253-255 | "31" in a 30-day month, not yet passed, fails |
| DateTime.DaysOffsetOfDigits | Plugin.php:263 | conversely, every optional plus, digits, `d` and optional final line feed matches, with the digits' value |
| DateTime.DaysTokenWithoutFeed | Plugin.php:263 | helper: `$` sees a `DaysToken` without its line feed |
| DateTime.DigitsThenDOf | Plugin.php:263 | helper: digits followed by `d` match `(\d+)d` with the digits' value |
| DateTime.DaysTokenIsNoKeyword | Plugin.php:197-263 | helper: a `DaysToken` without line feed is unchanged by lower-casing and is no keyword |
| DateTime.DropFinalNewlineOf | Plugin.php:263 | helper: a token without a final line feed, with or without one added, is seen by `$` as itself |
| DateTime.DropPlusOf | Plugin.php:263 | helper: the optional plus is dropped and nothing else |
| DateTime.DaysStrategy | Plugin.php:262-268 | a day-offset token that is no keyword requests that many days ahead; the result is the start of the day `strtotime` gives, or none when it fails |
| DateTime.RelativeDays | Plugin.php:262-268 | for every N, `Nd` and `+Nd` request N days ahead, and the result is the start of that day, or none when `strtotime` fails |
| DateTime.Fallback | Plugin.php:270-271 | a token that is no keyword, not numeric and not a day offset is passed lower-cased to `strtotime`, whose answer is the result |
| Strings.Find | Plugin.php:80 | the first index at or after `from` holding the character, or none when there is no such index |
| Strings.Split | Plugin.php:98 | at least one piece, and no piece contains the separator |
| Strings.SplitWithoutSeparator | Plugin.php:98 | a string without the separator is a single piece |
| Strings.JoinSplit | Plugin.php:98 | the pieces joined with the separator give the string back |
| Strings.SplitJoin | Plugin.php:98 | splitting a join of separator-free pieces gives the pieces back |
| Strings.RTrim | Plugin.php:25 | the result is the longest prefix that does not end in one of PHP's default trim characters |
| Strings.Lower | Plugin.php:197 | same length, with each character lower-cased (ASCII letters only) |
| Strings.LowerIdempotent | Plugin.php:197 | lower-casing twice is lower-casing once |
| Strings.Saturate | Plugin.php:148-149 | intval's result stays in the 64-bit range and saturates at its ends |
| Strings.IsNumeric | Plugin.php:147 | a numeric string is non-empty, starts with a digit or a sign and ends with a digit |
| Strings.IntVal | Plugin.php:147-149 | the value is in the 64-bit range, not positive after a minus sign and not negative otherwise |
| Strings.NatToString | Plugin.php:147-149 | a decimal numeral whose value is the number |
| Strings.IntToString | Plugin.php:147-149 | a numeric string whose intval is the number, for every 64-bit integer |
| Plugin.Stores.SaveTags | Plugin.php:103 | the task's tag list becomes the list saved |
| Plugin.Stores.CreateSubtask | Plugin.php:51 | the subtask is appended to the subtask store |
| Plugin.Stores.Update | Plugin.php:60 | the row is appended to the row updates |
| Plugin.Stores.TagList | Plugin.php:100 | a task with no saved list has no tags; otherwise its list is the one last saved |
| Plugin.Task.Load | Plugin.php:21 | a loaded task holds the row and no buffered subtasks |
| Plugin.Task.ParseLine | Plugin.php:71-167 | the result is true exactly when the line parses and its command applies; then the task and tag list take the command's new state, otherwise nothing changes; other tasks' tags and the description are untouched |
| Plugin.Task.RunCommand | Plugin.php:91-166 | each branch of the switch has the command's effect on success and returns false with nothing changed on each failure case |
| Plugin.Task.ScanBack | Plugin.php:29-45 | the loop ends with offset_lend at most the text length; the text before it and the task's state are what the reverse scan gives |
| Plugin.Task.FlushSubtasks | Plugin.php:49-54 | the subtask store gets the buffer in reverse, and the buffer is emptied |
| Plugin.Task.ParseDescription | Plugin.php:18-61 | the description becomes the kept text; fields and tags take the scan's final state; subtasks are created last-buffered first; one update with the new row; other tasks' tags unchanged; for a task with no buffered subtasks, the subtasks created are those of the dropped lines in text order, and their tags go in front of the old list |
| Example.LineIsCommand | Plugin.php:87-91 | helper: a line that parses as a command has that command's effect |
| Example.TagEffect | Plugin.php:96-104 | helper: a tag command with a non-empty parameter puts its pieces in front of the tag list |
| Example.ParseTagLine | Plugin.php:74-94 | "\tag urgent" parses as a tag command with parameter "urgent" |
| Example.ParsePrioLine | Plugin.php:74-140 | "\p 2" parses as a priority command with parameter "2" |
| Example.ParseDueLine | Plugin.php:74-123 | "\due 3d" parses as a due command with parameter "3d" |
| Example.ExampleTagLine | Plugin.php:92-104 | "\tag urgent" puts "urgent" in front of the task's tags |
| Example.ExamplePrioLine | Plugin.php:139-154 | "\p 2" sets the priority text "2" when 2 is within bounds |
| Example.ExampleDueLine | Plugin.php:122-129 | "\due 3d" sets the due date to the start of the day three days ahead |
| Example.DueEffect | Plugin.php:122-129 | helper: a due command whose parameter resolves sets the due date to the resolved timestamp |
| Example.ThreeDaysAhead | Plugin.php:262-268 | "3d" resolves to the start of the day three days ahead, or fails when `strtotime` does |
| Example.ScanThreeCommands | Plugin.php:31-45 | a text line under three lines that apply bottom-up is kept, in the state after all three |
| Example.WorkedExample | Plugin.php:25-57 | "Do the thing" followed by `\due 3d`, `\p 2` and `\tag urgent`, with bounds 1..5: the text line is all that is kept; the due date, priority "2" and tag "urgent" are set, and nothing else changes |

## Left out

- `initialize` and the `getPlugin*` getters. They are hook wiring and metadata.
- The not-found case of `taskFinderModel->getById`. The source uses the row it gets without checking it (Plugin.php:21); the model starts from a loaded row.
- Failures of the stores. The source discards the results of `create`, `update` and `save` (Plugin.php:51, 60, 103); the model's store methods always succeed and return nothing.
- Row columns other than those a command sets. `TaskRecord` carries only id, project, description, due, start, priority and color.
- What the collaborators do internally. Any de-duplication that the tag store does in `save` is not modelled: the saved list is stored as passed. The project lookup is reduced to the two bounds (already integers), the color lookup to a map, and the user session to an id.
- `strtotime`, `date(...)` and `removeTimeFromTimestamp`. They are functions of the `Calendar` value and timestamps are opaque. The natural-language fallback is a request the model passes on; its answer is not modelled.
- The clock is read once per extraction. The source calls `date` and `strtotime` again on each call, so the clock could move during one extraction. The comparison with the current day (`$dom >= $current_dom`, a string compared numerically) is an integer comparison in the model.
- `Strings.IntVal`: PHP's `is_numeric` also accepts forms such as "1.5", " 2" and "1e1". The model accepts only decimal digits after an optional sign. `intval` saturates at the 64-bit bounds.
- Strings are sequences of characters standing for bytes. Multi-byte characters and `strtolower` locale rules are not modelled; lower-casing affects ASCII letters only.
- `Plugin.Task.ScanBack` and `Plugin.Task.FlushSubtasks` are split out of the single `parseDescription` method. The statements and their order are those of the source.
