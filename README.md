# Task, counter, button and input demo — a Dafny model

This project models the logic of a small React component demo:

- **Task page** (`TaskStore`). The page keeps a list of tasks `{id, title, state}`. The state is TASK_INBOX, TASK_PINNED or TASK_ARCHIVED. Four handlers each return a whole new list: archive, toggle-pin, edit-title and add-task. Three order-preserving filters split the list into the inbox, pinned and archived views. Their lengths are the counts the page shows.
- **Task card** (`TaskCard`). A function from one task to what its card shows: the class, the archive checkbox, the title field and the pin button. It also gives the callback each control fires, with its arguments. `Dispatch` models how the page routes those callbacks to its handlers.
- **Counter** (`CounterPage`). The button page's counter is a class with an `int` field and three handlers. Nothing clamps the value in either direction. Two ghost fields count the increases and decreases since the last reset.
- **Test driver** (`ButtonPageObject`). The page object of the end-to-end tests is a class over that counter. `ClickIncrease`, `ClickDecrease` and `SetCounterTo` are loops of clicks, and each click is a call on the counter.
- **Button** (`Button`). Prop defaults, the class string `btn btn-<variant> btn-<size>`, the label, and the `disabled` flag that keeps clicks from reaching `onClick`.
- **Input page** (`InputPage`). The text cells and the form fields, overwritten by change handlers, modelled as a class. Text is a sequence of UTF-16 code units, as a JavaScript string is, so lengths and slices count code units: an emoji counts two. The 10-unit limited input, its length indicator and the `(空)` display of an empty value are pure functions.
- `Decimal` renders a number the way a template string does (`${n}`), with a read-back function and a round-trip lemma. `Wrappers` holds `Option`.

Four behaviours of the code run against what a reader of the page might expect. The model follows the code:

- The archive checkbox is always disabled (src/components/Task.jsx:23). The click that archives lands on the span beside it (src/components/Task.jsx:30), which is never disabled.
- Toggling pin twice does not restore an archived task. It ends in INBOX (`TaskStore.TogglePinTwiceUnarchives`).
- An archived task can leave the archive. The store's toggle-pin moves it to PINNED (src/pages/TaskPage.tsx:32).
- The page text says archived tasks become read-only (src/pages/TaskPage.tsx:240, src/pages/TaskPage.tsx:272). The card's title field stays editable on an archived task (src/components/Task.jsx:37-44), and the edit goes through (`TaskCard.TitleChangeEdits`).

The card never shows the pin button on an archived task (src/components/Task.jsx:47). So with unique ids, no click on a card can make that move (`TaskCard.PinClickSparesArchived`). The store alone does make it (`TaskCard.StorePinsArchived`). This mismatch is recorded as it is, not resolved.

## Model

| member | source | states |
|---|---|---|
| `TaskStore.Archive` | src/pages/TaskPage.tsx:20-24 | same length; each task with a matching id keeps its id and title and becomes ARCHIVED; every other task is unchanged |
| `TaskStore.Toggled` | src/pages/TaskPage.tsx:32 | the new state is never ARCHIVED; it is INBOX exactly when the old state was PINNED |
| `TaskStore.TogglePin` | src/pages/TaskPage.tsx:27-37 | same length; a matching task keeps its id and title, becomes INBOX iff it was PINNED and PINNED iff it was not (ARCHIVED included); other tasks unchanged |
| `TaskStore.EditTitle` | src/pages/TaskPage.tsx:40-44 | same length; a matching task takes the given title verbatim and keeps its id and state; other tasks unchanged |
| `TaskStore.AddTask` | src/pages/TaskPage.tsx:47-54 | one task appended after an unchanged prefix; it has the given id, state INBOX and a title starting with `新任务 ` |
| `TaskStore.AddTaskTitleNumber` | src/pages/TaskPage.tsx:50 | the rest of the new title is decimal digits with no leading zero that read back as the old length plus one |
| `TaskStore.AddTaskTitlesDiffer` | src/pages/TaskPage.tsx:50 | two successive additions get different titles |
| `TaskStore.ArchiveIdempotent` | src/pages/TaskPage.tsx:22 | archiving the same id twice equals archiving it once |
| `TaskStore.TogglePinTwiceRestores` | src/pages/TaskPage.tsx:32 | when no matching task is ARCHIVED, two toggles give back the original list |
| `TaskStore.TogglePinTwiceUnarchives` | src/pages/TaskPage.tsx:32 | a matching ARCHIVED task ends in INBOX after two toggles, with its id and title |
| `TaskStore.UnknownIdIsNoOp` | src/pages/TaskPage.tsx:21-43 | with an id no task has, archive, toggle-pin and edit-title return a list equal to the input |
| `TaskStore.HandlersPreserveIds` | src/pages/TaskPage.tsx:21-43 | the three editing handlers keep the id sequence, so length and order are kept |
| `TaskStore.Filter` | src/pages/TaskPage.tsx:57-59 | a view is never longer than the list |
| `TaskStore.InboxTasks` | src/pages/TaskPage.tsx:57 | an order-kept subsequence of the list whose tasks are all TASK_INBOX |
| `TaskStore.PinnedTasks` | src/pages/TaskPage.tsx:58 | an order-kept subsequence of the list whose tasks are all TASK_PINNED |
| `TaskStore.ArchivedTasks` | src/pages/TaskPage.tsx:59 | an order-kept subsequence of the list whose tasks are all TASK_ARCHIVED |
| `TaskStore.FilterKeepsState` | src/pages/TaskPage.tsx:57-59 | every task in a view has that view's state |
| `TaskStore.FilterIsSubsequence` | src/pages/TaskPage.tsx:57-59 | each view is a subsequence of the list, so the list's order is kept |
| `TaskStore.PartitionIsPermutation` | src/pages/TaskPage.tsx:57-59 | the pinned, inbox and archived views together hold each task of the list exactly as often as the list does |
| `TaskStore.PartitionCounts` | src/pages/TaskPage.tsx:93-115 | the three displayed counts add up to the list length |
| `TaskStore.PartitionDisjoint` | src/pages/TaskPage.tsx:57-59 | views of two different states share no task |
| `TaskStore.DisplayOrder` | src/pages/TaskPage.tsx:141-213 | a reordering of the list in which every pinned task comes before every inbox task and every inbox task before every archived one, each section keeping the list's order |
| `TaskStore.ArchiveViews` | src/pages/TaskPage.tsx:20-24 | after archiving an id, the inbox and pinned views are the old views with that id removed, order kept |
| `TaskStore.SeedCounts` | src/pages/TaskPage.tsx:11-17 | the seeded list shows 2 inbox, 2 pinned and 1 archived task |
| `TaskCard.SeedIdsUnique` | src/pages/TaskPage.tsx:11-17 | no two seeded tasks share an id, so the unique-id lemmas apply to the seeded page |
| `TaskStore.ArchiveScenario` | src/pages/TaskPage.tsx:20-24 | archiving "1" in [1 INBOX, 2 PINNED] gives [1 ARCHIVED, 2 PINNED], with views pinned [2], inbox [] and archived [1] |
| `TaskStore.TaskState.Name` | src/pages/TaskPage.tsx:12-16 | every state's string starts with `TASK_` |
| `TaskCard.Render` | src/components/Task.jsx:10-58 | class starts with `list-item `; aria-label `task-<id>`; checkbox checked iff ARCHIVED and always disabled; archive click fires archive(id); title field shows the title; pin button present iff not ARCHIVED, fires toggle-pin(id), label `unpin` iff PINNED and `pin` iff INBOX |
| `TaskCard.ClassNamesState` | src/components/Task.jsx:12 | the card's class reads back as `list-item ` followed by exactly the task's state |
| `TaskCard.StateFromName` | src/components/Task.jsx:12 | a recognised state string is the name of the state it yields |
| `TaskCard.TitleChange` | src/components/Task.jsx:43 | a title edit fires edit-title with the new value first and the task's id second |
| `TaskCard.Dispatch` | src/pages/TaskPage.tsx:152-159 | routing any card callback to the page's handlers keeps the list's length and ids |
| `TaskCard.ArchiveClickArchives` | src/components/Task.jsx:30 | after an archive click the task is ARCHIVED; its card shows checked and no pin button |
| `TaskCard.PinLabelDescribesClick` | src/components/Task.jsx:50-52 | a pin click moves the task to INBOX when the label is `unpin` and to PINNED when it is `pin` |
| `TaskCard.PinClickSparesArchived` | src/components/Task.jsx:47 | with unique ids, a pin click from any card leaves every archived task unchanged |
| `TaskCard.StorePinsArchived` | src/pages/TaskPage.tsx:32 | the store alone moves an ARCHIVED task to PINNED, though its card has no pin button |
| `TaskCard.TitleChangeEdits` | src/components/Task.jsx:43 | an edit from a card sets that task's title and keeps its state; the new card shows the new title |
| `CounterPage.Counter.constructor` | src/pages/ButtonPage.tsx:11 | the counter starts at 0, with no clicks counted |
| `CounterPage.Counter.Increase` | src/pages/ButtonPage.tsx:116 | adds exactly 1, with no bound, and counts one increase; keeps value = increases − decreases |
| `CounterPage.Counter.Decrease` | src/pages/ButtonPage.tsx:121 | subtracts exactly 1, below zero as well, and counts one decrease; keeps the invariant |
| `CounterPage.Counter.Reset` | src/pages/ButtonPage.tsx:126 | sets 0 from any value and clears the click counts |
| `ButtonPageObject.ButtonPageDriver.constructor` | e2e/pages/ButtonPage.ts:43-44 | the driver works on the page it is given |
| `ButtonPageObject.Abs` | e2e/pages/ButtonPage.ts:137 | `Math.abs`: the non-negative one of n and −n |
| `ButtonPageObject.ButtonPageDriver.GetCounterValue` | e2e/pages/ButtonPage.ts:97-100 | returns the counter's current value |
| `ButtonPageObject.ButtonPageDriver.ClickIncrease` | e2e/pages/ButtonPage.ts:105-109 | exactly max(times, 0) increase clicks and no decrease; the counter rises by that much; times defaults to 1 |
| `ButtonPageObject.ButtonPageDriver.ClickDecrease` | e2e/pages/ButtonPage.ts:114-118 | exactly max(times, 0) decrease clicks and no increase; the counter falls by that much; times defaults to 1 |
| `ButtonPageObject.ButtonPageDriver.ClickReset` | e2e/pages/ButtonPage.ts:123-125 | the counter is 0 afterwards |
| `ButtonPageObject.ButtonPageDriver.SetCounterTo` | e2e/pages/ButtonPage.ts:130-139 | the counter ends at the target from any start; exactly abs(target − start) clicks, all in one direction; none when already there |
| `ButtonPageObject.CounterFlow` | e2e/button-page.spec.ts:154-173 | from a fresh page: reads 0, 5 after five increases, 3 after two decreases, 7 after four increases, 0 after reset |
| `ButtonPageObject.SetCounterFlow` | e2e/button-page.spec.ts:140-152 | setting 7, then 3, then 10 reads 7, 3, 10 |
| `ButtonPageObject.BoundaryFlow` | e2e/button-page.spec.ts:245-257 | setting 100, then −50, then 0 reads 100, −50, 0 |
| `ButtonPageObject.NegativeFlow` | e2e/button-page.spec.ts:175-182 | three decreases from a fresh page read −3 (the test); an increase with the count left out then reads −2 (added here, for the default of e2e/pages/ButtonPage.ts:105) |
| `Button.Variant.Name` | src/components/Button.jsx:153 | each variant's string is one of the three the prop check accepts |
| `Button.Size.Name` | src/components/Button.jsx:158 | each size's string is one of the three the prop check accepts |
| `Button.ParseVariant` | src/components/Button.jsx:153 | a variant string is accepted exactly when it is one of primary, secondary, danger, and yields the variant of that name |
| `Button.ParseSize` | src/components/Button.jsx:158 | a size string is accepted exactly when it is one of small, medium, large, and yields the size of that name |
| `Button.NamesParse` | src/components/Button.jsx:153-158 | every variant and size passes the check as itself |
| `Button.Render` | src/components/Button.jsx:58-120 | the class is `ClassName` of the given variant and size, primary and medium filling in left-out props (so `btn btn-primary btn-medium` with both left out); disabled defaults to false, otherwise is the prop; aria-label and text both equal the label; onClick is passed through |
| `Button.Click` | src/components/Button.jsx:93-102 | a disabled element fires nothing; an enabled one fires its handler, if any |
| `Button.DisabledNeverFires` | src/components/Button.jsx:102 | a button rendered with disabled=true never fires onClick |
| `Button.ClassName` | src/components/Button.jsx:84 | the class string's class list is exactly `btn`, `btn-<variant>`, `btn-<size>` |
| `Button.ClassNameInjective` | src/components/Button.jsx:84 | equal class strings mean equal variant and size |
| `Button.FirstWord` | src/components/Button.jsx:84 | the first token is a space-free prefix, followed by a space or the end |
| `Button.FirstWordOf` | src/components/Button.jsx:84 | a space-free word followed by a space or the end is the first token |
| `Button.WordsCons` | src/components/Button.jsx:84 | such a word, if non-empty, is the first element of the token list |
| `Button.WordsOfThree` | src/components/Button.jsx:84 | three space-free words joined by single spaces read back as those three words |
| `Wrappers.Option.GetOr` | src/components/Button.jsx:63-65 | a given prop is used as is; a left-out one takes the default |
| `InputPage.Truncate` | src/pages/InputPage.tsx:197 | the result is the prefix of length min(length of s, n), counted in UTF-16 code units |
| `InputPage.TruncateIdempotent` | src/pages/InputPage.tsx:196-197 | truncating twice equals truncating once; text is unchanged exactly when it is within the limit |
| `InputPage.LimitedDisplay` | src/pages/InputPage.tsx:196 | the limited input shows the prefix of exactly min(length, 10) code units: all of a value that fits, the first 10 units of a longer one |
| `InputPage.LimitedChangeIndicator` | src/pages/InputPage.tsx:197-202 | after the limited input stores typed text, the stored text fits in 10 code units and the indicator is red iff the typed text had 10 or more |
| `InputPage.IndicatorRed` | src/pages/InputPage.tsx:201 | the indicator is red exactly when the limited input's display is full (10 code units) |
| `InputPage.IndicatorText` | src/pages/InputPage.tsx:202 | the indicator text ends with ` / 10 字符` |
| `InputPage.IndicatorCountsLength` | src/pages/InputPage.tsx:202 | the indicator's number is decimal digits with no leading zero that read back as the stored text's length in code units |
| `InputPage.SixEmoji` | src/pages/InputPage.tsx:197-202 | six emoji typed into the limited input are 12 code units; five emoji are kept and the indicator reads 10, in red |
| `InputPage.SliceSplitsPair` | src/pages/InputPage.tsx:197 | a letter and five emoji are 11 code units; keeping 10 stores the last emoji's high surrogate alone |
| `InputPage.BasicDisplay` | src/pages/InputPage.tsx:60 | never empty; shows the value itself iff it is non-empty, else `(空)` |
| `InputPage.InputPageState.constructor` | src/pages/InputPage.tsx:13-21 | every cell and form field starts empty |
| `InputPage.InputPageState.OnBasicChange` | src/pages/InputPage.tsx:56 | stores the typed text untruncated; no other field changes |
| `InputPage.InputPageState.OnLimitedChange` | src/pages/InputPage.tsx:197 | stores the first 10 code units of the typed text; no other field changes |
| `InputPage.InputPageState.OnEmailChange` | src/pages/InputPage.tsx:77 | stores the typed email; no other field changes |
| `InputPage.InputPageState.OnSearchChange` | src/pages/InputPage.tsx:87 | stores the typed search text; no other field changes |
| `InputPage.InputPageState.OnPasswordChange` | src/pages/InputPage.tsx:97 | stores the typed password; no other field changes |
| `InputPage.InputPageState.OnUsernameChange` | src/pages/InputPage.tsx:151 | replaces the form's username and keeps email and message |
| `InputPage.InputPageState.OnFormEmailChange` | src/pages/InputPage.tsx:162 | replaces the form's email and keeps username and message |
| `InputPage.InputPageState.OnMessageChange` | src/pages/InputPage.tsx:173 | replaces the form's message and keeps username and email |
| `InputPage.SharedCell` | src/pages/InputPage.tsx:56-202 | 12 ASCII characters (12 code units) typed into the basic input are stored whole; the limited input shows 10 and the indicator is red; the same text typed into the limited input stores 10 |
| `Decimal.NatToDecimal` | src/pages/TaskPage.tsx:50 | non-empty, all decimal digits, no leading zero |
| `Decimal.DecimalRoundTrip` | src/pages/TaskPage.tsx:50 | the printed text reads back as the number |
| `Decimal.NatToDecimalInjective` | src/pages/TaskPage.tsx:50 | different numbers print differently |
| `Decimal.DigitChar` | src/pages/TaskPage.tsx:50 | a digit character whose value is the digit |
| `Decimal.DigitValue` | src/pages/TaskPage.tsx:50 | a digit character's value is below 10 |

## Left out

- React rendering, JSX layout, inline styles, hover effects, routing and the home page: presentation only, with no logic to model.
- React state scheduling: the handlers read the `tasks` and `count` of the last render instead of using functional updates. Each event is modelled as one atomic step on the current state.
- New task ids come from the clock (`Date.now()`). `TaskStore.AddTask` takes the id as a parameter and claims nothing about its uniqueness.
- Task states other than the three strings: the runtime prop check only asks for a string. The model's `TaskState` type allows only the three values, so the counts always sum to the length.
- Variant and size strings outside the allowed three: the runtime prop check only logs a warning, and the component still renders with the string. The model's types allow only the three values. `Button.ParseVariant` and `Button.ParseSize` model the check itself.
- The card's element ids and label ids (`archiveTask-<id>`, `checked-<id>`, `title-<id>`, the archive span's `archiveButton-<id>` label, the title label's aria-label) are not modelled, except the pin button's `pinTask-<id>`, which is held but not stated.
- The title field fires on every keystroke. The model treats one change event with its whole new value.
- ButtonPageObject.ButtonPageDriver.ClickIncrease: `times` is an integer here. A fractional JavaScript number (2.5 runs three iterations) is not modelled.
- ButtonPageObject.ButtonPageDriver.ClickDecrease: same restriction on `times`.
- ButtonPageObject.ButtonPageDriver.SetCounterTo: the target is an integer here. A fractional JavaScript target is not modelled: from 0, a target of 2.5 makes three increase clicks and ends at 3, not at the target.
- CounterPage.Counter.Increase: `count` is a mathematical integer. The page holds a JavaScript number, and beyond 2^53 `count + 1` no longer changes it; that loss of precision is not modelled.
- CounterPage.Counter.Decrease: likewise, below −2^53 `count - 1` no longer changes the JavaScript number; not modelled.
- ButtonPageObject.ButtonPageDriver.GetCounterValue: reads the counter field directly. The browser reads the display text and parses it with `parseInt`, and that path is not modelled.
- The other page-object methods (navigation, title check, the variant buttons that raise an alert, the disabled-attribute and class-attribute reads, scrolling) and the network route mocking in the test helpers: browser I/O.
- The form's submit handler only shows an alert: I/O.
- The Input component's pass-through wrapper and its `debugger` statements: no logic.
