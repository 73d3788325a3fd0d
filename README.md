# pytest-testrail: a verified model of the publishing core

This project models the core of the pytest-testrail plugin in Dafny. The plugin
records the outcome of every pytest test that carries TestRail case ids and
publishes those outcomes to a TestRail run or plan. The core has three layers:

- **Tag and list helpers** (`pytest_testrail/functions.py`; `plugin.py` holds copies):
  - `clean_test_ids` and `clean_suite_ids` reduce tags such as `C1234` to their
    trailing digits.
  - `clean_test_defects` passes defect ids through.
  - `get_testrail_keys` and `get_testrail_suite_ids` collect the marked items.
  - The module also holds `get_case_list`, `filter_publish_results`,
    `get_suite_by_case` and the status tables and URL templates of `vars.py`.
- **The result buffer and the payload builder:**
  - `add_result` appends one record per case id.
  - `add_results` and `_add_results` stable-sort the buffer by case id.
  - Unless blocked results are published, the same methods drop the cases that
    are blocked in the run.
  - Each record becomes one `add_results_for_cases` entry: the comment block,
    the 4000-character log limit, and the elapsed time in whole seconds.
- **Target resolution and dispatch:**
  - At collection, an open plan wins, then an open run; otherwise a run is created.
  - At collection the skip-missing marking is applied.
  - At session end the results go to the run or to every open run of the plan,
    and then the run or plan is closed.
  - The `TestrailActions` create, update and lookup methods belong to this layer.

The files, one Dafny module each:

| file | module | models |
|---|---|---|
| `wrappers.dfy` | `Wrappers` | `Option`, `Completion` (`Done` or `Raised`: the Python call raised), truthiness |
| `strings.dfy` | `Strings`, `Seqs` | decimal digits, `str(int)`, trailing digits, character replacement, list filtering |
| `vars.dfy` | `Vars` | `vars.py`: status tables, URL templates and `str.format`, the run and plan names |
| `remote.dfy` | `Remote` | the TestRail service as seen by the plugin, open runs of a plan, `get_tests` pagination |
| `functions.dfy` | `Functions` | `functions.py` |
| `payload.dfy` | `Payload` | the entries and comments of `add_results`, sorting and blocked-case filtering |
| `plugin.dfy` | `Plugin` | `plugin.py`: the class `PyTestRailPlugin` and the specification functions of a session |
| `actions.dfy` | `Actions` | `testrail_actions.py`: the classes `TestRailModel` and `TestrailActions` |

How the model handles the service, state and errors:

- **The service.** TestRail's HTTP API is replaced by a value of type
  `Remote.Service`. It has one function per kind of request, keyed by the request path.
  Each reply is either `Failure(error)` (a reply carrying an `error` field) or
  `Success(record)`.
- **Outgoing requests.** POST requests are recorded in a ghost log: the field
  `posts` of `PyTestRailPlugin` and of `TestRailModel`. Payloads are specified
  by stating what that log becomes.
- **State.** The plugin's mutable state is held in class fields, and every
  method states its new state:
  - `results`, `testrun_id`, `testplan_id` and `testrun_name` in
    `PyTestRailPlugin`;
  - `testrun_id`, `testplan_id` and `testplan_entry_id` in `TestRailModel`;
  - the skip mark of each pytest item.
- **Specification functions.** Each method is proved against a ghost
  function of the old state, such as `Plugin.SessionFinish` or
  `Actions.PublishResultsOf`, and the properties of the plugin are lemmas
  about those functions.
- **Exceptions.** Where the Python code raises, the model says so:
  - Where a pure function raises (a tag without trailing digits, an unknown
    outcome), it returns `None`.
  - Where a method raises (iterating the `None` that a failed `get_tests` returns,
    `runs[0]` of an empty list, a `KeyError` on an error reply), it returns
    `Raised`. It stops at the same point as the Python code.

Two behaviours of the code are easy to misread, and the model follows what the code does:

- **Duplicate case ids.** The comments at `pytest_testrail/plugin.py:301` and
  `pytest_testrail/testrail_actions.py:46` say results are sorted by `case_id` and
  by `status_id`, with the worst result at the end. The status sort is commented
  out (`plugin.py:305`), and only the `case_id` sort at `plugin.py:306` runs. No
  records are merged, so results with the same case id are sent as separate
  entries, in insertion order (`tests/test_plugin.py:172-186`).
- **Errors while paging.** `get_tests` returns `None` on an error reply
  (`plugin.py:498-501`). The skip-missing marking (`plugin.py:186-187`) and the
  blocked-case filter (`plugin.py:311-312`) then iterate over that `None`, and
  Python raises `TypeError`. The model returns `Raised` at that point.

## Model

| member | source | states |
|---|---|---|
| Vars.StatusCodes | pytest_testrail/vars.py:2-8 | the five TestRail statuses are exactly passed, blocked, untested, retest, failed with the distinct codes 1, 2, 3, 4, 5 |
| Vars.OutcomeCodes | pytest_testrail/vars.py:10-14 | the pytest outcomes are exactly passed, failed, skipped, mapped to 1, 5, 2; every code is a TestRail status |
| Vars.AddResultsPath | pytest_testrail/vars.py:21 | `add_results_for_cases/{}` formats id n as that prefix followed by n's decimal text |
| Vars.AddRunPath | pytest_testrail/vars.py:22 | `add_run/{}` formats as its prefix followed by the id |
| Vars.AddPlanEntryPath | pytest_testrail/vars.py:23 | `add_plan_entry/{}` formats as its prefix followed by the id |
| Vars.AddPlanPath | pytest_testrail/vars.py:24 | `add_plan/{}` formats as its prefix followed by the id |
| Vars.CloseRunPath | pytest_testrail/vars.py:25 | `close_run/{}` formats as its prefix followed by the id |
| Vars.ClosePlanPath | pytest_testrail/vars.py:26 | `close_plan/{}` formats as its prefix followed by the id |
| Vars.GetRunPath | pytest_testrail/vars.py:27 | `get_run/{}` formats as its prefix followed by the id |
| Vars.GetPlanPath | pytest_testrail/vars.py:28 | `get_plan/{}` formats as its prefix followed by the id |
| Vars.GetTestsPath | pytest_testrail/vars.py:29 | `get_tests/{}` formats as its prefix followed by the id |
| Vars.GetSuitesPath | pytest_testrail/vars.py:31 | `get_suites/{}` formats as its prefix followed by the id |
| Vars.UpdateRunPath | pytest_testrail/vars.py:32 | `update_run/{}` formats as its prefix followed by the id |
| Vars.UpdatePlanEntryPath | pytest_testrail/vars.py:33 | the update-plan-entry path is `/update_plan_entry/`, the plan id, `/`, the entry id |
| Vars.AddResultsUrlInjective | pytest_testrail/vars.py:21 | two runs share an `add_results_for_cases` path only if they are the same run |
| Vars.GetCasesTemplate | pytest_testrail/vars.py:30 | `GET_TESTCASES_URL` takes the project id, then the suite id, and ends in `&limit=99999` |
| Vars.UpdatePlanEntryTemplate | pytest_testrail/vars.py:33 | `UPDATE_TESTPLAN_ENTRY` takes the plan id, then the entry id |
| Vars.OnlyUpdatePlanEntryIsAbsolute | pytest_testrail/vars.py:21-33 | of the thirteen templates, exactly `UPDATE_TESTPLAN_ENTRY` begins with `/` |
| Vars.FormatLiteral | pytest_testrail/vars.py:21-33 | `str.format` copies text without fields unchanged in front of the rest |
| Vars.FormatField | pytest_testrail/vars.py:21-33 | a leading `{}` takes the first argument and formats the rest with the others |
| Vars.FormatOne | pytest_testrail/vars.py:21-32 | a template ending in its only `{}` formats as the prefix followed by the argument |
| Vars.FormatTwo | pytest_testrail/vars.py:30 | a two-field template formats with its two arguments in order |
| Vars.FormatTwoFields | pytest_testrail/vars.py:33 | a template ending in its second `{}` formats with its two arguments in order |
| Vars.Pad2 | pytest_testrail/vars.py:16 | `%d`, `%m`, `%H`, `%M`, `%S` give two digits whose value is the field |
| Vars.FormatDateTime | pytest_testrail/vars.py:16 | for a four-digit year, `%d-%m-%Y %H:%M:%S` gives 19 characters: day, month and year separated by `-`, a space, then hour, minute and second separated by `:`, each field digits that read back to its value |
| Vars.FourDigitYear | pytest_testrail/vars.py:16 | a year from 1000 to 9999 is written with four digits |
| Vars.TestrunName | pytest_testrail/functions.py:80-83 | the run name is `Automated Run ` followed by the formatted timestamp; 33 characters for a four-digit year |
| Vars.TestrunNameExample | tests/test_plugin.py:78-81 | at the frozen clock 2015-01-31 19:05:42 the run is named `Automated Run 31-01-2015 19:05:42` |
| Vars.FormatDateTimeExample | pytest_testrail/vars.py:16 | that clock formats as `31-01-2015 19:05:42` |
| Vars.TestplanName | pytest_testrail/functions.py:86-89 | the plan entry name is `Automated Plan Entry ` followed by the formatted timestamp; 40 characters for a four-digit year |
| Strings.NatToString | pytest_testrail/plugin.py:352 | `str(n)` of a natural is non-empty, all digits, without a leading zero |
| Strings.IntToString | pytest_testrail/functions.py:173 | `str(i)` is non-empty; digits for `i >= 0`, a leading `-` otherwise |
| Strings.DigitsValueOfNatToString | pytest_testrail/functions.py:107 | `int(str(n)) == n` |
| Strings.IntToStringInjective | pytest_testrail/functions.py:173 | different integers have different decimal forms |
| Strings.TrailingDigits | pytest_testrail/functions.py:107 | the `[0-9]+$` match is a run of digits no longer than the tag |
| Strings.TrailingDigitsSuffix | pytest_testrail/functions.py:107 | the matched digits end the tag and the character before them is not a digit |
| Strings.TrailingDigitsAfter | pytest_testrail/functions.py:107 | after a non-digit character, the trailing digits of `p + d` are exactly `d` |
| Strings.RemoveChars | pytest_testrail/plugin.py:230 | after the three `replace` calls none of the removed characters is left |
| Strings.FirstLine | pytest_testrail/functions.py:117 | the `.*` match is the tag's prefix up to, and without, its first newline |
| Seqs.Filter | pytest_testrail/plugin.py:317 | a list comprehension with a condition keeps only elements of the list that satisfy it |
| Seqs.FilterMembership | pytest_testrail/plugin.py:317 | an element is kept iff it is in the list and satisfies the condition |
| Seqs.FilterAppend | pytest_testrail/plugin.py:317 | filtering a concatenation filters each part |
| Seqs.FilterAll | pytest_testrail/functions.py:167-174 | a condition every element satisfies keeps the whole list |
| Seqs.Distinct | pytest_testrail/testrail_actions.py:230 | `list(set(l))` is duplicate-free and has the same elements as `l` |
| Remote.OpenRunsInPlan | pytest_testrail/plugin.py:475-478 | a run id is collected iff some entry holds a run with that id that is not completed |
| Remote.OpenRunsMembership | pytest_testrail/plugin.py:475-478 | the same, stated over entry and run indices |
| Remote.OpenRunsOfMembership | pytest_testrail/plugin.py:476-478 | within one entry, an id is collected iff one of its runs has that id and is not completed |
| Remote.OpenRunsStep | pytest_testrail/plugin.py:475 | each entry adds its open runs after those of the entries before it |
| Remote.OpenRunsOfStep | pytest_testrail/plugin.py:476-478 | each run adds its id at the end iff it is not completed |
| Remote.SamplePlanOpenRuns | tests/test_plugin.py:265-269 | the plan of the unit tests, whose middle run is completed, gives `[59, 61]` |
| Remote.PageThenRest | pytest_testrail/plugin.py:503-508 | a page with a `next` cursor contributes its tests before those of the pages after it |
| Remote.PaginateFuel | pytest_testrail/plugin.py:492-510 | a page chain that ends gives the same tests however many more requests are allowed |
| Remote.AllTestsByFuel | pytest_testrail/plugin.py:492-510 | the tests of a run are those of any finished walk of its page chain |
| Remote.SinglePage | pytest_testrail/plugin.py:496-510 | an error on the first page gives `None`; a single page without `next` gives exactly its tests |
| Remote.TwoPages | pytest_testrail/plugin.py:503-508 | two pages give the first page's tests followed by those of the page its cursor names |
| Functions.Item.constructor | pytest_testrail/functions.py:139-152 | a collected item carries its marker ids, defect ids and parameters and is not yet marked to be skipped |
| Functions.CleanId | pytest_testrail/functions.py:107 | a tag cleans iff it ends in a digit (after an optional final newline), to a non-negative value |
| Functions.CleanIdOfTag | pytest_testrail/functions.py:107 | a prefix not ending in a digit followed by digits cleans to the digits' value, also with a final newline |
| Functions.CleanIdRoundTrip | pytest_testrail/functions.py:107 | the tag `C` + `str(n)` cleans back to `n` |
| Functions.CleanIds | pytest_testrail/functions.py:100-107 | the tags clean iff every tag does; then the list has the same length and holds each tag's value in order |
| Functions.CleanIdsOfTwo | pytest_testrail/functions.py:119-126 | two tags clean to the list of their two values, in order |
| Functions.CleanIdsExample | tests/test_plugin.py:93-94 | `['C1234', 'C12345']` cleans to `[1234, 12345]` |
| Functions.CleanIdsRejectsTag | pytest_testrail/functions.py:107 | one tag that does not end in a digit makes the whole list fail |
| Functions.CleanTestDefects | pytest_testrail/functions.py:110-117 | the same number of defects, each the text of its defect up to its first newline |
| Functions.FirstLineOfLine | pytest_testrail/functions.py:117 | a defect without a newline is its own match |
| Functions.CleanTestDefectsIdentity | pytest_testrail/functions.py:110-117 | on newline-free defect ids `clean_test_defects` is the identity |
| Functions.GetTestOutcome | pytest_testrail/functions.py:70-77 | defined exactly for passed, failed and skipped; a TestRail status; skipped reports blocked |
| Functions.GetCaseList | pytest_testrail/functions.py:128-136 | `None` gives `[]`; otherwise the case id of each test, in order |
| Functions.MarkedIdsSucceeds | pytest_testrail/functions.py:139-165 | collecting the marked items' ids succeeds iff every marked item's tags clean |
| Functions.MarkedIdsPairs | pytest_testrail/functions.py:139-165 | one pair per marked item, in item order, holding that item and its cleaned ids; unmarked items are left out |
| Functions.PrefixFailure | pytest_testrail/functions.py:139-165 | a marked item whose tags do not clean makes the whole collection fail |
| Functions.GetMarkedIds | pytest_testrail/functions.py:139-165 | the `append` loop of `get_testrail_keys` and `get_testrail_suite_ids` computes `MarkedIds` |
| Functions.FilterPublishResults | pytest_testrail/functions.py:167-174 | keeps, in order, exactly the results whose case id is not ignored; the second list is their `str(case_id)`, in parallel |
| Functions.GetSuiteByCase | pytest_testrail/functions.py:176-180 | the first suite, in mapping order, whose cases contain the case; 0 when none does |
| Payload.UnindentIndent | pytest_testrail/plugin.py:341 | indenting every line after the first loses nothing: the log can be read back |
| Payload.IndentLength | pytest_testrail/plugin.py:341 | indenting adds four characters per newline |
| Payload.Tail | pytest_testrail/plugin.py:341 | `s[-4000:]` is the whole text when it is short and otherwise its last 4000 characters |
| Payload.LogBlockRoundTrip | pytest_testrail/plugin.py:340-341 | the truncation marker is present iff the log exceeds 4000 characters; the block reads back to the log's last 4000 characters |
| Payload.BuildComment | pytest_testrail/plugin.py:329-348 | a `''` comment gives the custom comment; no comment gives the parameter block only; a non-empty one starts with the parameter block, the custom line and the result header |
| Payload.CommentLayout | pytest_testrail/plugin.py:331-346 | a non-empty log comment is the parameter block, the custom line, the header and then the log block that reads back to the log's tail |
| Payload.ShortComment | tests/test_plugin.py:182-185 | a one-line log within the limit gives the header followed by four spaces and the log |
| Payload.WholeSeconds | pytest_testrail/plugin.py:351 | at least one second and within half a second of the duration |
| Payload.Elapsed | pytest_testrail/plugin.py:349-352 | no `elapsed` iff the duration is 0; `1s` under a second; otherwise the rounded seconds followed by `s` |
| Payload.ElapsedExamples | pytest_testrail/plugin.py:349-352 | 2.6 seconds is sent as `3s`, 0.1 seconds as `1s` |
| Payload.BuildEntry | pytest_testrail/plugin.py:324-353 | an entry copies status, case and defects; it has `version` iff the version is non-empty, the built comment, and `elapsed` iff the duration is not 0 |
| Payload.Entries | pytest_testrail/plugin.py:325-353 | one entry per result, in the order of the results |
| Payload.EntriesSnoc | pytest_testrail/plugin.py:353 | one more result appends its entry at the end |
| Payload.BuildResultsBody | pytest_testrail/testrail_actions.py:68-93 | the `data['results']` loop builds exactly the entries of the results |
| Payload.AddResultsWithShape | pytest_testrail/plugin.py:306-359 | `add_results` raises iff blocked results are left out and the tests cannot be read; otherwise it sends exactly one POST of the buffer it leaves, which is the sorted results without the blocked cases |
| Payload.AddResultsKeepsUnblocked | pytest_testrail/plugin.py:309-317 | a result survives iff it was buffered and its case is not blocked in the run |
| Payload.InsertSorted | pytest_testrail/plugin.py:306 | inserting into a sorted list keeps it sorted and adds exactly the new element |
| Payload.SortByCaseSortedPermutation | pytest_testrail/plugin.py:306 | sorting by case id gives a sorted permutation of the results |
| Payload.InsertStable | pytest_testrail/plugin.py:306 | insertion keeps the relative order of results with the same case id |
| Payload.SortByCaseStable | tests/test_plugin.py:172-186 | results with the same case id keep their insertion order and none is merged away |
| Payload.SortByCaseIdempotent | pytest_testrail/plugin.py:306 | sorting an already sorted buffer again changes nothing |
| Payload.SortedUnchanged | pytest_testrail/plugin.py:306 | a buffer already sorted by case id is left as it is |
| Payload.DropCasesSorted | pytest_testrail/plugin.py:317 | dropping blocked cases keeps the buffer sorted |
| Payload.BlockedCaseIds | pytest_testrail/plugin.py:311-314 | a case is in the blocked list iff some test of the run has that case and status 2 |
| Payload.DropCasesMembership | pytest_testrail/plugin.py:317 | a result is kept iff it was there and its case is not in the blocked list |
| Payload.DropCasesTwice | pytest_testrail/plugin.py:254-255 | dropping two blocked lists one after the other drops their concatenation |
| Payload.DropNothing | pytest_testrail/plugin.py:317 | an empty blocked list drops nothing |
| Payload.QuotedAll | pytest_testrail/plugin.py:230 | `str(list)` quotes each defect id, in order |
| Payload.RemoveCharsAppend | pytest_testrail/plugin.py:230 | removing characters from a concatenation removes them from each part |
| Payload.RemoveCharsNone | pytest_testrail/plugin.py:230 | text without brackets or quotes is left unchanged |
| Payload.RemoveBrackets | pytest_testrail/plugin.py:230 | removing the brackets of the list text leaves its inside |
| Payload.JoinQuoted | pytest_testrail/plugin.py:230 | stripping brackets and quotes from the quoted, comma-joined ids leaves the plain ids joined with `, ` |
| Payload.DefectsStringPlain | pytest_testrail/plugin.py:230 | the defect string of plain defect ids is those ids joined with `, ` |
| Payload.ThenClose | pytest_testrail/plugin.py:259-262 | after a publication that completed, the session's requests are its requests followed by the closing ones |
| Plugin.Report | pytest_testrail/plugin.py:213-240 | an item with ids reported at `call` records one result per case id with the outcome's status, the longrepr, the duration, the defects and the parameters; if its tags or the outcome do not clean, it raises; otherwise nothing is recorded |
| Plugin.ReportExample | pytest_testrail/plugin.py:221-240 | a passed test tagged `C1234`, `C12345` records cases 1234 and 12345 as passed |
| Plugin.PublishRunsStep | pytest_testrail/plugin.py:254-255 | each plan run gets `add_results` on what the previous runs left, unless a call already raised |
| Plugin.PublishRunsLast | pytest_testrail/plugin.py:254-255 | the same step for the last run of the list |
| Plugin.RaisedStays | pytest_testrail/plugin.py:254-255 | once a call raises, the later runs send nothing |
| Plugin.PublishRunsTargets | pytest_testrail/plugin.py:254-255 | the i-th POST of the plan loop goes to the i-th open run, and there is one per run when no call raised |
| Plugin.TargetsOneMore | pytest_testrail/plugin.py:254-255 | one more run keeps the POSTs aimed at the runs in order |
| Plugin.TargetsSnoc | pytest_testrail/plugin.py:255 | a call that sends at most one POST to its run extends the aimed-in-order POSTs |
| Plugin.PublishTargets | pytest_testrail/plugin.py:249-257 | a selected run gets at most one POST and nothing else does; with no run and no plan nothing is sent; with a plan the POSTs go to its open runs in order |
| Plugin.PublishBlockedRuns | pytest_testrail/plugin.py:252-255 | when blocked results are published, every plan run gets the same sorted buffer |
| Plugin.BlockedOneMore | pytest_testrail/plugin.py:255 | when blocked results are published, one more run gets one POST of the sorted buffer |
| Plugin.SamePostsSnoc | pytest_testrail/plugin.py:255 | one more POST of the same buffer to the next run extends the list |
| Plugin.AllFetchedPrefix | pytest_testrail/plugin.py:311-314 | runs whose tests can be read stay readable in any prefix of the list |
| Plugin.PlanBufferAccumulates | pytest_testrail/plugin.py:309-317 | in plan mode with readable runs, the buffer ends up sorted without the blocked cases of every run |
| Plugin.LastRunPost | pytest_testrail/plugin.py:309-317 | the last plan run receives the sorted buffer without the cases blocked in any run |
| Plugin.StepLastPost | pytest_testrail/plugin.py:255 | the request a completed call sends comes right after those of the calls before it |
| Plugin.PlanExclusionsAccumulate | pytest_testrail/plugin.py:254-255 | the i-th plan run receives the buffer without the cases blocked in runs 0 to i: exclusions accumulate |
| Plugin.PrefixPosts | pytest_testrail/plugin.py:254-255 | when the loop completes, every prefix of it completes and its POSTs are a prefix of the loop's |
| Plugin.DoneGrows | pytest_testrail/plugin.py:254-255 | the same, for the list without its last run |
| Plugin.StepGrows | pytest_testrail/plugin.py:255 | a completed round means the earlier rounds completed and its POSTs extend theirs |
| Plugin.SamplePlanPublish | tests/test_plugin.py:192-213 | with blocked results published, the unit tests' plan gets the sorted buffer at runs 59 and then 61 |
| Plugin.PairOfPosts | tests/test_plugin.py:192-213 | POSTs aimed at two runs in order are exactly those two requests |
| Plugin.AllIds | pytest_testrail/plugin.py:179 | `tr_keys` holds exactly the ids of the marked items |
| Plugin.AllIdsInItemOrder | pytest_testrail/plugin.py:179 | `tr_keys` is the marked items' id lists concatenated in item order, duplicates kept |
| Plugin.NextRound | pytest_testrail/plugin.py:492-508 | one round of the `while repeat` loop keeps the invariant: what was read, followed by the rest of the chain, is the whole chain |
| Plugin.PyTestRailPlugin.constructor | pytest_testrail/plugin.py:142-161 | the plugin starts with an empty buffer, the configured run, plan and name, and no request sent |
| Plugin.PyTestRailPlugin.AddResult | pytest_testrail/plugin.py:267-287 | appends one record per test id, in id order, sharing status, comment, duration, defects and parameters; earlier records are unchanged |
| Plugin.PyTestRailPlugin.IsTestrunAvailable | pytest_testrail/plugin.py:427-442 | true iff the run can be read and is not completed |
| Plugin.PyTestRailPlugin.IsTestplanAvailable | pytest_testrail/plugin.py:444-459 | true iff the plan can be read and is not completed |
| Plugin.PyTestRailPlugin.GetAvailableTestruns | pytest_testrail/plugin.py:461-479 | the open runs of the plan in entry and run order, `[]` when the plan cannot be read |
| Plugin.PyTestRailPlugin.AppendOpenRuns | pytest_testrail/plugin.py:476-478 | the inner loop appends the entry's open runs |
| Plugin.PyTestRailPlugin.GetTests | pytest_testrail/plugin.py:481-510 | the concatenated tests of every page until `next` is falsy; `None` on any error reply |
| Plugin.PyTestRailPlugin.ReadPages | pytest_testrail/plugin.py:488-510 | the `while repeat` loop computes the page chain |
| Plugin.PyTestRailPlugin.ReadPage | pytest_testrail/plugin.py:493-496 | one request on the run's path followed by the cursor's query text |
| Plugin.PyTestRailPlugin.AddResults | pytest_testrail/plugin.py:289-363 | the buffer and the requests become those of one `add_results` call on the run |
| Plugin.PyTestRailPlugin.CreateTestRun | pytest_testrail/plugin.py:364-393 | sends one `add_run` request with the given fields; the run id becomes the reply's id, unchanged on an error reply |
| Plugin.PyTestRailPlugin.CloseTestRun | pytest_testrail/plugin.py:395-409 | sends exactly one `close_run` request |
| Plugin.PyTestRailPlugin.CloseTestPlan | pytest_testrail/plugin.py:411-425 | sends exactly one `close_plan` request |
| Plugin.PyTestRailPlugin.SkipMissing | pytest_testrail/plugin.py:189-192 | an item is marked to be skipped iff it was, or none of its case ids is in the run |
| Plugin.PyTestRailPlugin.MarkIfMissing | pytest_testrail/plugin.py:190-192 | one item is marked iff none of its case ids is in the run |
| Plugin.PyTestRailPlugin.KeepRun | pytest_testrail/plugin.py:183-192 | an open run clears the plan; with skip-missing the run's tests mark the missing items, and when they cannot be read it raises |
| Plugin.PyTestRailPlugin.StartRun | pytest_testrail/plugin.py:193-206 | the name defaults to the timestamped run name; one `add_run` with the case ids; the run id becomes the reply's id |
| Plugin.PyTestRailPlugin.PytestCollectionModifyitems | pytest_testrail/plugin.py:177-206 | uncleanable tags raise and change nothing; an open plan clears the run id; else an open run clears the plan id and applies skip-missing; else a run is created with every marked id in item order |
| Plugin.PyTestRailPlugin.Select | pytest_testrail/plugin.py:181-206 | the precedence: an open plan, then an open run, then a new run |
| Plugin.PyTestRailPlugin.SelectRun | pytest_testrail/plugin.py:183-206 | an open run is kept, otherwise a run is created |
| Plugin.PyTestRailPlugin.PytestRuntestMakereport | pytest_testrail/plugin.py:209-240 | appends exactly the records of `Report`, or raises and buffers nothing |
| Plugin.PyTestRailPlugin.PublishToPlan | pytest_testrail/plugin.py:251-255 | `add_results` on each open run of the plan in turn, stopping at the first that raises |
| Plugin.PyTestRailPlugin.PublishAll | pytest_testrail/plugin.py:254-255 | the loop over the plan's runs computes `PublishRuns` |
| Plugin.PyTestRailPlugin.PublishToRun | pytest_testrail/plugin.py:254-255 | one round of that loop extends it by one run |
| Plugin.PyTestRailPlugin.PublishSession | pytest_testrail/plugin.py:249-257 | a run id wins over a plan id; with neither, nothing is sent |
| Plugin.PyTestRailPlugin.CloseOnComplete | pytest_testrail/plugin.py:259-262 | when closing is asked for, closes the run if one is set, else the plan |
| Plugin.PyTestRailPlugin.PytestSessionfinish | pytest_testrail/plugin.py:242-263 | an empty buffer sends nothing; otherwise publish and, when no call raised, close |
| Actions.PlanRunsOrFailOpen | pytest_testrail/testrail_actions.py:376-387 | on a readable plan, a run id is listed iff some entry holds that run and it is not completed |
| Actions.SendToRunsStep | pytest_testrail/testrail_actions.py:121-122 | each run gets `_add_results` on the caller's list, which is sorted in place |
| Actions.SendRaisedStays | pytest_testrail/testrail_actions.py:121-122 | once a call raises, the later runs send nothing |
| Actions.SameSorted | pytest_testrail/testrail_actions.py:50 | `_add_results` depends only on the sorted list |
| Actions.SendToRunsSorts | pytest_testrail/testrail_actions.py:50 | the caller's list ends up sorted by case id and keeps every result |
| Actions.EachRunPostSnoc | pytest_testrail/testrail_actions.py:121-122 | one more run adds its POST at the end |
| Actions.NoRaiseInit | pytest_testrail/testrail_actions.py:53-61 | runs whose tests can be read stay readable without the last one |
| Actions.SendOneMore | pytest_testrail/testrail_actions.py:121-122 | a readable run after a completed loop gets exactly one more POST |
| Actions.SendToRunsEach | pytest_testrail/testrail_actions.py:118-122 | with readable runs, every run gets one POST of the same filtered list |
| Actions.RunReceives | pytest_testrail/testrail_actions.py:50-61 | each run receives the sorted list without its own blocked cases only: exclusions do not accumulate |
| Actions.PublishResultsToRun | pytest_testrail/testrail_actions.py:104-129 | with a run given, one POST of the non-ignored results to the model's run, then the closing request |
| Actions.PublishResultsToPlan | pytest_testrail/testrail_actions.py:104-129 | with a plan, one POST per open run of the non-ignored results, then the closing request |
| Actions.PublishResultsUnreadablePlan | pytest_testrail/testrail_actions.py:118-122 | a plan that cannot be read raises before any POST |
| Actions.PublishResultsUnassigned | pytest_testrail/testrail_actions.py:107-108 | with a non-empty list and `diff_case_ids` never assigned, the call raises before any POST, whatever the model |
| Actions.PublishResultsNothing | pytest_testrail/testrail_actions.py:107 | no results, or an empty list, send nothing and complete, even with `diff_case_ids` unassigned |
| Actions.ResultList.constructor | pytest_testrail/testrail_actions.py:35 | the list passed to `_add_results` holds the given results |
| Actions.TestRailModel.constructor | pytest_testrail/TestrailModel.py:5-27 | the fields hold the given configuration; no plan entry id and no request sent |
| Actions.TestrailActions.constructor | pytest_testrail/testrail_actions.py:10-11 | the actions hold the given model, and `diff_case_ids` is unassigned (`None`) |
| Actions.TestrailActions.AddResult | pytest_testrail/testrail_actions.py:13-33 | one record with exactly the six given fields |
| Actions.AddResultAgrees | pytest_testrail/testrail_actions.py:13-33 | the plugin's `add_result` records are those of the actions' `add_result`, one per id |
| Actions.TestrailActions.GetTests | pytest_testrail/testrail_actions.py:334-347 | the run's test list, or `None` on an error reply |
| Actions.TestrailActions.AddResults | pytest_testrail/testrail_actions.py:35-102 | sorts the caller's list in place and sends what one `_add_results` call sends |
| Actions.TestrailActions.PublishResults | pytest_testrail/testrail_actions.py:104-130 | sends what `publish_results` sends: nothing for no results; with results, raises with no POST while `diff_case_ids` is unassigned; otherwise the given model's run id decides and the own model's ids are posted to; a missing model raises |
| Actions.TestrailActions.PublishKept | pytest_testrail/testrail_actions.py:116-129 | publishing the kept results, then closing when every call completed |
| Actions.TestrailActions.DispatchResults | pytest_testrail/testrail_actions.py:116-124 | the run, else the plan's open runs, else nothing |
| Actions.TestrailActions.SendToAll | pytest_testrail/testrail_actions.py:121-122 | the loop over the plan's runs computes `SendToRuns` |
| Actions.TestrailActions.SendToRun | pytest_testrail/testrail_actions.py:121-122 | one round of that loop extends it by one run |
| Actions.TestrailActions.CloseOnComplete | pytest_testrail/testrail_actions.py:126-129 | when closing is asked for, closes the run if one is set, else the plan |
| Actions.TestrailActions.CreateTestRun | pytest_testrail/testrail_actions.py:132-163 | one `add_run` request; on an error reply 0 and nothing changes; otherwise the new id is returned and stored as the run id |
| Actions.TestrailActions.CreatePlanEntry | pytest_testrail/testrail_actions.py:165-193 | one `add_plan_entry` request; on an error 0; otherwise the entry id is stored and the run id becomes the first run's id, raising when there is none |
| Actions.TestrailActions.CreatePlan | pytest_testrail/testrail_actions.py:195-216 | one `add_plan` request; on an error 0 and nothing changes; otherwise the new id is returned and stored as the plan id |
| Actions.TestrailActions.UpdatedCaseIds | pytest_testrail/testrail_actions.py:225-231 | duplicate-free, containing exactly the new ids and, when previous ones are kept, the run's current case ids |
| Actions.TestrailActions.UpdateTestrun | pytest_testrail/testrail_actions.py:218-244 | sends one `update_run` request whose case ids are the duplicate-free union |
| Actions.TestrailActions.UpdateTestplanEntry | pytest_testrail/testrail_actions.py:246-269 | sends one update-plan-entry request whose case ids are the duplicate-free union |
| Actions.TestrailActions.IsTestrunAvailable | pytest_testrail/testrail_actions.py:271-286 | true iff the run can be read and is not completed |
| Actions.TestrailActions.IsTestplanAvailable | pytest_testrail/testrail_actions.py:389-401 | true iff the plan can be read and is not completed |
| Actions.TestrailActions.CloseTestRun | pytest_testrail/testrail_actions.py:288-302 | sends exactly one `close_run` request |
| Actions.TestrailActions.CloseTestPlan | pytest_testrail/testrail_actions.py:304-318 | sends exactly one `close_plan` request |
| Actions.TestrailActions.GetAvailableTestruns | pytest_testrail/testrail_actions.py:376-387 | the open runs of the plan; `None` (a raise) exactly when the plan cannot be read |
| Actions.TestrailActions.GetTestplanEntryId | pytest_testrail/testrail_actions.py:363-374 | returns and stores the first entry holding a run whose `str(id)` is the given id; `None` when no entry does; raises on an unreadable plan |
| Actions.TestrailActions.FindEntry | pytest_testrail/testrail_actions.py:368-373 | the index of the first entry holding the run, or the number of entries |
| Actions.TestrailActions.FindRun | pytest_testrail/testrail_actions.py:370-372 | true iff some run's `str(id)` is the given id |

## Left out

- `pytest_testrail/testrail_api.py` (HTTP with `requests`) is not part of this model. The service is the parameter `Remote.Service`; `get_error` is "the reply has an `error` field".
- Replies to the plugin's POSTs that the code only logs (`add_results_for_cases`, `close_run`, `close_plan`, `update_run`, `update_plan_entry`) are not modelled; the requests are.
- `pytest_testrail/conftest.py` (command-line options and `ConfigManager`) is not part of this model: it only reads configuration.
- The pytest machinery is not modelled:
  - the hook wrapper's `yield` and `outcome.get_result()`;
  - marker objects and the `pytestrail.case`, `suite` and `defect` decorators;
  - the deprecated `testrail` decorator and its warnings;
  - `add_marker`, which is a skip flag on the item;
  - `pytest_report_header`.
- `is_xdist_worker` and worker coordination: process-level concurrency is not modelled.
- `datetime.utcnow()` is a `DateTime` parameter of the collection hook.
- Durations are `real` numbers, not floats.
- Payload.WholeSeconds: states only that the result is at least one second and within half a second of the duration; it rounds halves up, where Python's `round` rounds halves to even.
- `converter` is the identity, as it is on Python 3.
- The cursor rewriting `urlencode(parse_qsl(next))` is the opaque function `cursorParams` of the service.
- All logging with `print` is left out.
- `cert_check`, `tr_url`, `user_email`, `user_password`, `client`, `results`, `test_run_flag` and `tr_keys` of `TestRailModel` are not modelled: the core never reads them.
- `TestrailActions.get_cases` and `get_plan` are not modelled on their own: `get_plan` appears only inside the methods that call it.
- `testrail_actions.get_tests` sends one request without pagination. This is the service's `getTestList`, unlike the paginated `get_tests` of the plugin.
- Payload.ParamsRepr: `str(dict)` of the parameters writes each key quoted and each value as the text it is given; the model does not compute Python's `repr` of the values.
- Payload.Quoted: `repr` of a defect id is itself between single quotes, which holds for ids without quotes or backslashes.
- `str(longrepr)` of a pytest report is taken to be a string.
- A `testrail` marker without `ids` is modelled as an empty id list. The source differs: `kwargs.get('ids')` is `None`, and `clean_test_ids` (`functions.py:107`, called at `functions.py:147-149`) iterates it and raises `TypeError`, so `pytest_collection_modifyitems` stops before any run is selected or created. The model goes on with `(item, [])`: with skip-missing on an open run it marks that item, otherwise `add_run` is sent. `pytest_runtest_makereport` records nothing in both (`plugin.py:223`).
- A `None` run or plan id in `TestRailModel` is 0.
- `publish_blocked is False` is `!publishBlocked`: a `None` setting counts as `True`.
- Actions.TestrailActions.UpdatedCaseIds: the order of `list(set(...))` is left unspecified; the contract states only that there are no duplicates and which elements are present.
- Remote.AllTests: a page chain that never ends is outside the model. The methods that fetch tests require every run's chain to end (`PagesEnd`), and the proofs bound the loop with ghost fuel.
- Several methods are not functions of the source but loops or branches cut out of the source methods:
  - `KeepRun`, `StartRun`, `Select`, `SelectRun`, `SkipMissing` and `MarkIfMissing` from `pytest_collection_modifyitems`;
  - `PublishSession`, `PublishToPlan`, `PublishAll`, `PublishToRun` and `CloseOnComplete` from `pytest_sessionfinish`;
  - `ReadPages` and `ReadPage` from `get_tests`, and `AppendOpenRuns` from `get_available_testruns`;
  - `PublishKept`, `DispatchResults`, `SendToAll`, `SendToRun` and `CloseOnComplete` from `publish_results`;
  - `FindEntry` and `FindRun` from `get_testplan_entry_id`.
- Actions.TestrailActions.PublishResults: `diff_case_ids` is a field that starts unassigned, because no code of the program assigns it. A caller that assigns it, as a Python caller can, reaches the publishing branch. Without that, a non-empty list raises `AttributeError` at `testrail_actions.py:108` (see Findings).
- The copies of the module helpers in `pytest_testrail/plugin.py` (lines 89-138) are modelled once, by the `Functions` module.

## Findings

| source | as written | input that shows it | evidently intended | confidence | as-written member | corrected member |
|---|---|---|---|---|---|---|
| pytest_testrail/testrail_actions.py:108 | `publish_results` reads `self.diff_case_ids`, which neither `__init__` (lines 10-11) nor any other code assigns | `TestrailActions(model).publish_results(model, [r])` with any result `r` raises `AttributeError` before any request | the ignore list is set before publishing, and the non-ignored results are published | not executed | Actions.PublishResultsUnassigned | Actions.PublishResultsToRun |
