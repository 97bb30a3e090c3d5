# LCProb — a verified model of the problem picker

LCProb helps a user practise coding-interview problems. It keeps a table of
problems from three curated lists: Grind75, Grind169 and Neetcode150. Each row
holds a number, name, difficulty, link, list, completion date and completion
flag. The picker draws an unsolved problem from the first list that still has
one, in that priority order. It then records the user's answer in the table:
`y` marks the problem done, `n` leaves the table alone, `r` resets all
progress, and a problem number undoes that problem. If every problem is done
when the picker starts, `main` clears the completion dates and tries once more.
If that second try also fails, it raises an error.

An offline script builds the table from a workbook with one sheet per list:

1. It reads each sheet into rows. `Med.` becomes `Medium`, links get a trailing `/`, and the list is the sheet name.
2. Each problem number is kept only in the first sheet that lists it.
3. Empty completion columns are added.
4. The sheets are concatenated.

The project has four files:

- `wrappers.dfy` defines `Option` and `Result`.
- `pystr.dfy` models, over ASCII, the Python string built-ins the answer handler uses (`lower`, `isdigit`, `int`) and `str`, which the tests use to spell a problem-number answer.
- `lcprob.dfy` (module `LCProb`) models `lcprob.py`. Selection is a pure function of the table and of a `pick: nat` that stands for the random draw of `DataFrame.sample(1)`; the row drawn is candidate `pick % |candidates|`. The table is an `array<Record>` that the answer handler and the fallback update in place. An empty `Date Completed` cell is `None`.
- `find_unique.dfy` (module `FindUnique`) models `scripts/find_unique.py`. The script's ordered dictionary of sheets is a sequence of sheets in insertion order. Each step is a method proved against specification functions.

The fallback in `main` clears only `Date Completed` before it retries; see Findings. The `-r/--repetition` flag is parsed and never used.

## Model

| member | source | states |
|---|---|---|
| PyStr.Lower | lcprob.py:64-70 | `s.lower()` keeps the length, leaves no ASCII capital, keeps every other character and maps each capital to its small letter |
| PyStr.IsDigits | lcprob.py:74 | no contract of its own: `s.isdigit()` as a non-empty run of ASCII digits; PyStr.LowerOfDigits and LCProb.NumberResponseUndoes state its behaviour |
| PyStr.Value | lcprob.py:75-78 | no contract of its own: `int(s)` of a digit string; PyStr.ValueOfShow states `int(str(n)) == n` |
| PyStr.Show | tests/test_lcprob.py:55 | `str(n)` is a non-empty string of decimal digits with no leading zero |
| PyStr.ValueOfShow | lcprob.py:75-78 | `int(str(n)) == n` |
| PyStr.OneLetterLower | lcprob.py:64-70 | `s.lower() == c` exactly for the lower- and the upper-case spelling of the letter |
| PyStr.LowerOfDigits | lcprob.py:74 | lower-casing leaves a digit string unchanged |
| LCProb.RowsOfList | lcprob.py:38 | the list filter keeps exactly the table's rows of that list and is no longer than the table |
| LCProb.IncompleteRows | lcprob.py:39-43 | the `Completed == 0` filter keeps exactly the rows with `Completed == 0` |
| LCProb.CountCompleted | lcprob.py:40 | the number of rows with `Completed != 0` plus the number of incomplete rows is the list's length |
| LCProb.AllCompletedIff | lcprob.py:40-41 | the skip test `sum(~inds) == len(df)` holds exactly when the list has no incomplete row, an empty list included |
| LCProb.GetProbFrom | lcprob.py:37-53 | the loop's result is either `Problem(False)` or a success from one of the lists tried; LCProb.GetProbFromSpec states the rest |
| LCProb.GetProb | lcprob.py:33-53 | `_get_prob` returns `Problem(False)` or a success from one of the three lists; LCProb.SelectionOutcome, LCProb.SelectionFollowsPriority and LCProb.SelectionCoversCandidates state the rest |
| LCProb.GetProbFromSpec | lcprob.py:37-53 | over any list order: success iff some list has an incomplete row; a success comes from the first such list, is an incomplete row of it and copies its fields; a failure is `Problem(False)` |
| LCProb.SkipKeepsSelection | lcprob.py:40-41 | skipping a list without an incomplete row keeps the selection guarantee for the remaining lists |
| LCProb.SelectionOutcome | lcprob.py:33-53 | `_get_prob` succeeds iff a row of the three lists is incomplete; the result is an incomplete row of one of the three lists, its fields copied; otherwise `Problem(False)` |
| LCProb.SelectionFollowsPriority | lcprob.py:35-43 | Grind75 is used whenever it has an incomplete row, Grind169 only when Grind75 has none, Neetcode150 only when neither has |
| LCProb.SelectionIsCandidate | lcprob.py:43-51 | every successful draw is an incomplete row of the first list that has one |
| LCProb.SkipsListWithoutIncomplete | lcprob.py:40-41 | a list without an incomplete row is skipped whatever the draw |
| LCProb.DrawsCandidate | lcprob.py:43-51 | every incomplete row of the first list tried can be drawn |
| LCProb.CandidateReachableFrom | lcprob.py:37-51 | every incomplete row of the first qualifying list can be drawn, whatever lists precede it |
| LCProb.SelectionCoversCandidates | lcprob.py:43-51 | every candidate row is the result of some draw, so the possible results are exactly the candidates |
| LCProb.SingleIncompleteIsSelected | lcprob.py:33-53 | with exactly one incomplete row, in one of the three lists, every draw returns that row |
| LCProb.SelectionReadsListAndCompleted | lcprob.py:37-43 | two tables equal in `List` and `Completed` give the same success and list for every draw |
| LCProb.UndoReversesMarkDone | lcprob.py:64-80 | undoing a problem just marked done restores its rows when they were not completed before |
| LCProb.RowsOfListClearDates | lcprob.py:38 | clearing dates commutes with the list filter |
| LCProb.IncompleteRowsClearDates | lcprob.py:39 | clearing dates commutes with the `Completed == 0` filter |
| LCProb.GetProbFromClearDates | lcprob.py:37-53 | the selection loop gives the same result before and after clearing dates |
| LCProb.DatesDoNotAffectSelection | lcprob.py:94-96 | clearing `Date Completed` changes no selection for any draw |
| LCProb.RetryAfterDateResetFails | lcprob.py:91-98 | after a failed selection, the retry that follows clearing dates fails for every draw |
| LCProb.FullResetMakesSelectable | lcprob.py:71-72 | after a full reset, selection succeeds whenever one of the three lists has a row |
| LCProb.DateResetCounterexample | lcprob.py:91-98 | a one-row, completed Grind75 table: the date-only retry fails, a full reset would succeed |
| LCProb.MarkDone | lcprob.py:65-66 | after `y`, every row with the number has `Completed = 1` and the date `now`, its other fields kept; every other row is unchanged |
| LCProb.Undo | lcprob.py:78-79 | after an undo, every row with the number has `Completed = 0` and no date, its other fields kept; every other row is unchanged |
| LCProb.ResetAll | lcprob.py:71-72 | after `r`, every row has `Completed = 0` and no date, its other fields kept |
| LCProb.ClearDates | lcprob.py:94 | every row's date is emptied and every other field kept |
| LCProb.MarkRows | lcprob.py:65-66 | every row with the number gets `Completed = 1` and the date `now`; other rows unchanged |
| LCProb.UnmarkRows | lcprob.py:78-79 | every row with the number gets `Completed = 0` and an empty date; other rows unchanged |
| LCProb.ResetProgress | lcprob.py:71-72 | every row gets `Completed = 0` and an empty date |
| LCProb.ClearDateColumn | lcprob.py:94 | every row's date is emptied; everything else unchanged |
| LCProb.HandleResponse | lcprob.py:56-83 | valid iff the answer is `y`/`n`/`r` in either case or a digit string naming a row; `y` marks `prob_num` (even if no row has it), `r` resets all, a digit string undoes that number; `n` and every rejected answer leave the table unchanged; letters take precedence over digits |
| LCProb.NumberResponseUndoes | tests/test_lcprob.py:53-57 | the answer `str(n)` reaches the undo branch for number `n` |
| LCProb.SelectProblem | lcprob.py:91-98 | as written: the error is raised exactly when no row of the three lists is incomplete; a success leaves the table unchanged; the error leaves it with dates cleared |
| LCProb.SelectProblemWithFullReset | lcprob.py:91-98 | corrected: with a full reset before the retry, the error is raised only when none of the three lists has a row |
| FindUnique.NormaliseDifficulty | scripts/find_unique.py:40-43 | the difficulty is Easy, Medium or Hard; it is Medium exactly for `Med.`, and every other tag is kept as it is |
| FindUnique.FirstBlank | scripts/find_unique.py:25-28 | reading stops at the first blank cell or the end of the column |
| FindUnique.ReadRowsAreNormalised | scripts/find_unique.py:38-46 | every row read has a normalised difficulty, a link that matches the hyperlink pattern followed by `/`, and the sheet name as list |
| FindUnique.RowOf | scripts/find_unique.py:38-46 | the row of a parsed cell: number and name from the captures, the difficulty normalised from the captured tag, the link followed by `/`, the sheet name as list |
| FindUnique.ReadSheet | scripts/find_unique.py:25-46 | one row per cell before the first blank, each from its captures; otherwise the error of the first unparsable cell |
| FindUnique.GetProblemLists | scripts/find_unique.py:12-53 | every sheet read in workbook order under its name, or the error of the first sheet that fails |
| FindUnique.KeepIn | scripts/find_unique.py:66 | the membership filter keeps exactly the rows whose number is kept, as a subsequence; FindUnique.KeepInCounts states that each such row keeps all its occurrences |
| FindUnique.KeepInCounts | scripts/find_unique.py:66 | a row whose number is kept occurs in the result as often as in the input; any other row does not occur |
| FindUnique.WithCompletionColumns | scripts/find_unique.py:68-69 | adding the two columns keeps the row count |
| FindUnique.WithColumnsHasRows | scripts/find_unique.py:68-69 | every input row is in the result with `Date Completed == ""` and `Completed == 0` |
| FindUnique.Strip | scripts/find_unique.py:68-69 | dropping the two columns keeps the row count |
| FindUnique.InNumbersBefore | scripts/find_unique.py:63-64 | the running set of seen numbers holds exactly the numbers of the earlier sheets |
| FindUnique.UniqueNumbersOf | scripts/find_unique.py:62-66 | an output sheet's numbers are its input numbers minus those already seen |
| FindUnique.EarliestSheetKeepsNumber | scripts/find_unique.py:62-66 | a number is in output sheet `k` iff sheet `k` has it and no earlier sheet does |
| FindUnique.SheetsAreDisjoint | scripts/find_unique.py:61-66 | no number is in two output sheets |
| FindUnique.KeepInAll | scripts/find_unique.py:66 | a filter that keeps every number keeps every row |
| FindUnique.FirstSheetKeepsAll | scripts/find_unique.py:62-66 | the first sheet keeps all its rows |
| FindUnique.KeptRowsInOrder | scripts/find_unique.py:66 | each output sheet is a subsequence of its input sheet |
| FindUnique.FirstSheetWith | scripts/find_unique.py:61-64 | a number of some sheet has a first sheet that lists it |
| FindUnique.NoNumberLost | scripts/find_unique.py:62-64 | a number is in some output sheet iff it is in some input sheet |
| FindUnique.UniqueSheetOf | scripts/find_unique.py:62-69 | output sheet `k` keeps the input sheet's name; each of its rows is a row of the input sheet whose number no earlier sheet has, with `Date Completed == ""` and `Completed == 0`; FindUnique.UniqueSheetKeepsFirstSeenRows states the converse |
| FindUnique.UniqueSheetKeepsFirstSeenRows | scripts/find_unique.py:62-69 | every row of input sheet `k` whose number no earlier sheet has is in output sheet `k`, with `Date Completed == ""` and `Completed == 0` |
| FindUnique.GetUniqueProblems | scripts/find_unique.py:56-71 | output sheet `k` is input sheet `k` filtered to its first-seen numbers, with the columns added; sheets are pairwise disjoint; every row has `Date Completed == ""` and `Completed == 0` |
| FindUnique.Concat | scripts/find_unique.py:82 | the concatenation's length is the sum of the sheet lengths |
| FindUnique.ConcatPrefix | scripts/find_unique.py:82 | concatenating the first sheets gives a prefix of concatenating all of them |
| FindUnique.ConcatPlacesSheet | scripts/find_unique.py:82 | sheet `k`'s rows sit, in order, right after the rows of the sheets before it |
| FindUnique.InConcat | scripts/find_unique.py:82 | a row is in the concatenation iff it is in one of the sheets |
| FindUnique.CreateUniqueTable | scripts/find_unique.py:77-82 | fails exactly when there is no sheet (`pd.concat` of an empty list); otherwise the output has the total row count, every sheet's rows in insertion order at its offset, and no row not from some sheet |

## Left out

- Spaced repetition: the `-r/--repetition` flag is parsed (lcprob.py:121) but never passed to `main`, and no tier logic exists in the code.
- File I/O: reading and writing the CSV (lcprob.py:88, 95, 115; scripts/find_unique.py:83) and loading the workbook with openpyxl (scripts/find_unique.py:16-18). A workbook is a sequence of `Worksheet` values in sheet order.
- The script's `main`, with its asserts on the row counts of the real dataset (scripts/find_unique.py:86-101).
- The interactive part of `main`: printing, `webbrowser.open`, the re-prompt loop (lcprob.py:100-116), `Problem.__str__` and argparse. The "Problem not found." and "Invalid response" messages are left out too; only the returned flag is modelled.
- Randomness: `sample(1)` is the parameter `pick`. The lemmas show that every candidate is reachable and that nothing else is.
- `pd.Timestamp.now()` is the parameter `now`, an opaque non-empty string.
- The two regular expressions of `_get_problem_lists` are not modelled. Their capture groups are inputs, shaped as the patterns guarantee: a difficulty of `Easy`, `Med.` or `Hard`, and a link that matches the hyperlink pattern. In that pattern the `.` of `leetcode.com` is unescaped, so it matches any character but a newline, and the model allows that too. The slug's character class `[\w-]` is not modelled; any non-empty slug is allowed. A cell without a hyperlink fails like a link that does not match.
- `str.lower` and `str.isdigit` are modelled over ASCII only. Python's Unicode digits and case mappings are not.
- pandas turns `""` into a null date; the model writes `None` for the empty date.
- Problem numbers are strings in the script (regex captures) and integers in the picker. The CSV round trip between the two is not modelled.
- FindUnique.GetUniqueProblems: returns the new sequence of sheets instead of overwriting the dictionary in place. It assumes distinct sheet names, as workbook sheet names are. `problems` is a set, because only `set(problems)` is ever read.
- FindUnique.CreateUniqueTable: appends each sheet's rows directly instead of building `out_df_list` and calling `pd.concat` once. For at least one sheet the result is the same sequence. For no sheets, the `ValueError` of `pd.concat` is the `Failure` `NoObjectsToConcatenate`.
- The file lcprob.py keeps `Completed` and `Date Completed` independent, as the code does. The model does not impose "not completed iff no date", because `main`'s date-only reset breaks it.

## Findings

| source | as written | input that shows it | evidently intended | confidence | as-written member | corrected member |
|---|---|---|---|---|---|---|
| lcprob.py:91-98 | after a failed selection only `Date Completed` is cleared before the retry; selection reads only `List` and `Completed`, so the retry always fails and `RuntimeError("No problems found")` is raised | a table whose only row is a Grind75 problem with `Completed = 1` (any table in which every row of the three lists is completed) | reset `Completed` to 0 as well, so that a finished set starts over | medium, not executed | LCProb.SelectProblem (with LCProb.DateResetCounterexample and LCProb.RetryAfterDateResetFails) | LCProb.SelectProblemWithFullReset (with LCProb.FullResetMakesSelectable) |
