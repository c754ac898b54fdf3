# Dashboard state and form logic, in Dafny

This project models the logic under the farm dashboard's React UI:

- the mock daily-task store and the mutation hooks around it, with the query
  key each hook invalidates;
- the mock project list and log constructor;
- the settings form: loading it, its dirty flag, the save payload and the save outcome;
- the launch panel's `handleLaunch`;
- the daily-task panel's title guard, its counter and its row handlers;
- the application sidebar's collapsed flag and farm type;
- the sidebar toolkit's provider: `open`, `setOpen`, `toggleSidebar`, the
  keyboard shortcut, `state` and the tooltip rule;
- the toast message builder.

Component state that handlers update in place is a Dafny `class`, with
`modifies` on its handlers. The expressions the components compute are pure
functions. Their properties are stated in their own contracts or, where a
property spans several calls, in lemmas: round trips, the "nothing else
changes" facts, and the counter's relation to the list.

Modules:

| module | what it holds |
|---|---|
| `Wrappers` | `Option` |
| `JsText` | the JavaScript string operations the code relies on |
| `JsArray` | `map`, `filter`, `find` |
| `QueryCache` | the query client, reduced to a log of invalidated keys |
| `UseToast`, `UseDashboard`, `Settings`, `LaunchPanel`, `DailyTasksPanel`, `Sidebar` | one module per source file |

`JsText` covers whitespace and `trim`, `String(n)`, and `parseInt` after
section 19.2.5 of ECMA-262.

Where the model follows the code rather than the intent one might read into it:

- `parseInt` is called without a radix in the settings form, so a text that
  starts with `0x` is read in base 16 (`ParseUnsigned`). Both thread inputs
  are `type="number"`, though, and such an input delivers "" for `0x10`, so
  typing it sends 1.
- `parseInt(x) || 1` replaces only NaN and 0. A negative count such as `-3`
  is sent as typed (`ThreadCount`).
- The `!` after `find` in `toggleDailyTask` is a type assertion only. Toggling
  an absent id returns `undefined`, modelled as `None`, so `Toggle` has no
  precondition.
- A stored count of 0, or a missing path, makes the form report changes right
  after loading: it shows `"1"` or `""`, which differ from `String(0)` and from
  `undefined` (`Settings.LoadedChangedIff`).
- `useCreateLog` invalidates the `projects` key, not a log key.

## Model

| member | source | states |
|---|---|---|
| `JsText.TrimStart` | src/components/daily-tasks-panel.tsx:20 | the result is a suffix of the input; everything dropped is ECMAScript whitespace; the result does not start with whitespace |
| `JsText.TrimEnd` | src/components/daily-tasks-panel.tsx:20 | the mirror image: a prefix; only whitespace is dropped; the result does not end with whitespace |
| `JsText.TrimEmptyIffWhiteSpace` | src/components/daily-tasks-panel.tsx:20 | `s.trim()` is empty exactly when every character of `s` is whitespace |
| `JsText.NatToString` | src/features/settings/index.tsx:46 | the decimal numeral is non-empty and all digits, with no leading zero except for 0 itself |
| `JsText.IntToString` | src/features/settings/index.tsx:46 | `String(n)` is non-empty and starts with '-' exactly when n is negative |
| `JsText.DigitValue` | src/features/settings/index.tsx:66 | a digit's value is below the radix |
| `JsText.DigitRun` | src/features/settings/index.tsx:66 | the longest prefix of radix digits: all digits, and the next character, if any, is not one |
| `JsText.NatToStringValue` | src/features/settings/index.tsx:46 | reading the decimal numeral of n gives back n |
| `JsText.DigitRunOfNumeral` | src/features/settings/index.tsx:66 | the digit run of a numeral followed by a non-digit is the whole numeral |
| `JsText.ParseUnsignedOfNumeral` | src/features/settings/index.tsx:66 | an unsigned numeral, not followed by a digit or an `x`, parses to its value |
| `JsText.ParseIntOfIntToString` | src/features/settings/index.tsx:46-66 | `parseInt(String(n) + rest) == n` for every integer n when `rest` does not continue the numeral |
| `JsText.ParseIntSkipsWhiteSpace` | src/features/settings/index.tsx:66 | leading whitespace does not change what `parseInt` reads |
| `JsText.TrimStartSkips` | src/features/settings/index.tsx:66 | trimming the start of whitespace followed by text gives the trimmed text |
| `JsArray.Map` | src/hooks/use-dashboard.ts:25 | `map` keeps the length and applies the function at every index |
| `JsArray.Filter` | src/hooks/use-dashboard.ts:30 | `filter` never lengthens; an element is in the result exactly when it is in the input and passes |
| `JsArray.FilterAppend` | src/hooks/use-dashboard.ts:30 | filtering distributes over concatenation, so the kept elements keep their order |
| `JsArray.FilterAllPass` | src/hooks/use-dashboard.ts:30 | a filter every element passes returns the input |
| `JsArray.FilterIdempotent` | src/hooks/use-dashboard.ts:30 | filtering twice by the same test is filtering once |
| `JsArray.FilterPartition` | src/hooks/use-dashboard.ts:30 | a test and its negation split the list: the two lengths add up to the whole |
| `JsArray.FindIndex` | src/hooks/use-dashboard.ts:26 | the index of the first passing element, or the length when none passes |
| `JsArray.Find` | src/hooks/use-dashboard.ts:26 | `find` is `undefined` exactly when nothing passes, else the first passing element |
| `QueryCache.QueryClient.InvalidateQueries` | src/hooks/use-dashboard.ts:46 | the key is added to the log of invalidated keys |
| `UseToast.Message` | src/hooks/use-toast.ts:10 | both present: title, newline, description; one present: that one alone; neither: "" |
| `UseToast.CountAppend` | src/hooks/use-toast.ts:10 | counting a character distributes over concatenation |
| `UseToast.CountZero` | src/hooks/use-toast.ts:10 | a count of 0 means the character does not occur |
| `UseToast.JoinSeparators` | src/hooks/use-toast.ts:10 | joining non-empty, newline-free parts gives exactly one newline fewer than the parts, none at either end, and "" only for no parts |
| `UseToast.MessageSeparators` | src/hooks/use-toast.ts:10 | the message holds one newline exactly when both parts are present, is "" exactly when neither is, and never starts or ends with a newline |
| `UseToast.Toaster.Toast` | src/hooks/use-toast.ts:8-13 | the built message is the one shown |
| `UseDashboard.SetCompletedSpec` | src/hooks/use-dashboard.ts:25 | toggling marks every task with the id and leaves the other tasks, the length and the order as they were |
| `UseDashboard.FindAfterSetCompleted` | src/hooks/use-dashboard.ts:25-26 | after toggling, `find` by the id is the first task with it, now with the new flag, and is `undefined` exactly when no task has the id |
| `UseDashboard.WithoutIdSpec` | src/hooks/use-dashboard.ts:30 | after deleting, no task has the id; every other task remains; the order is kept |
| `UseDashboard.WithoutAbsentId` | src/hooks/use-dashboard.ts:30 | deleting an absent id changes nothing |
| `UseDashboard.WithoutIdIdempotent` | src/hooks/use-dashboard.ts:30 | deleting twice is deleting once |
| `UseDashboard.WithoutIdLength` | src/hooks/use-dashboard.ts:30 | deleting shortens the list by exactly the number of tasks with the id |
| `UseDashboard.TaskStore.constructor` | src/hooks/use-dashboard.ts:9-12 | the store starts with the two mock tasks |
| `UseDashboard.TaskStore.Fetch` | src/hooks/use-dashboard.ts:14-16 | returns the current list and changes nothing |
| `UseDashboard.TaskStore.Create` | src/hooks/use-dashboard.ts:18-22 | the new task has the given id and title, is not completed, and is put in front of the unchanged old list |
| `UseDashboard.TaskStore.Toggle` | src/hooks/use-dashboard.ts:24-27 | the list is the toggled list; the result is the first task with the id, carrying the new flag, or none when the id was absent |
| `UseDashboard.TaskStore.Delete` | src/hooks/use-dashboard.ts:29-31 | the list loses exactly the tasks with the id; an absent id leaves it unchanged |
| `UseDashboard.FetchProjects` | src/hooks/use-dashboard.ts:87-93 | the mock projects have distinct ids |
| `UseDashboard.CreateLog` | src/hooks/use-dashboard.ts:95-103 | the log carries the project id, message, id and timestamp it was given |
| `UseDashboard.CreateDailyTaskMutation` | src/hooks/use-dashboard.ts:41-49 | creates the daily task, then invalidates exactly the daily-tasks key |
| `UseDashboard.ToggleDailyTaskMutation` | src/hooks/use-dashboard.ts:51-59 | toggles, then invalidates exactly the daily-tasks key |
| `UseDashboard.DeleteDailyTaskMutation` | src/hooks/use-dashboard.ts:61-69 | deletes, then invalidates exactly the daily-tasks key |
| `UseDashboard.CreateLogMutation` | src/hooks/use-dashboard.ts:114-123 | creates the log, then invalidates exactly the projects key |
| `DailyTasksPanel.Counter` | src/components/daily-tasks-panel.tsx:35 | completed is at most total; both are 0 without data; otherwise total is the list's length and completed the number of set flags |
| `DailyTasksPanel.CompletedCountIsFlagCount` | src/components/daily-tasks-panel.tsx:35 | the filtered length equals the number of tasks whose flag is set |
| `DailyTasksPanel.CounterAfterCreate` | src/components/daily-tasks-panel.tsx:35 | creating a task raises the total by one and leaves the completed count |
| `DailyTasksPanel.CounterAfterToggle` | src/components/daily-tasks-panel.tsx:35 | checking never lowers the completed count, unchecking never raises it, neither changes the total |
| `DailyTasksPanel.Panel.constructor` | src/components/daily-tasks-panel.tsx:16 | the new-task input starts empty |
| `DailyTasksPanel.Panel.SetNewTaskTitle` | src/components/daily-tasks-panel.tsx:77 | the input's text becomes the typed value |
| `DailyTasksPanel.Panel.CreateDisabled` | src/components/daily-tasks-panel.tsx:83 | the add button is off exactly while creating or while the title is all whitespace |
| `DailyTasksPanel.Panel.HandleCreate` | src/components/daily-tasks-panel.tsx:18-25 | a blank title changes nothing; otherwise the untrimmed title is created, the daily-tasks key invalidated and the input cleared |
| `DailyTasksPanel.OnCheckedChange` | src/components/daily-tasks-panel.tsx:53 | the row's own id is toggled to the checkbox's value |
| `DailyTasksPanel.OnDeleteClick` | src/components/daily-tasks-panel.tsx:63 | the row's own id is deleted, and the row's task is gone |
| `LaunchPanel.ProjectName` | src/components/launch-panel.tsx:31-32 | the name of the first project with the selected id; "Unknown Project" when none has it or the projects are not loaded |
| `LaunchPanel.ProjectNameOfMock` | src/components/launch-panel.tsx:31-32 | with the mock projects loaded, id "1" names "Project One", id "2" names "Project Two", and any other selection "Unknown Project" |
| `LaunchPanel.MixTailDecides` | src/components/launch-panel.tsx:36 | the text after the range tells the two mix values apart |
| `LaunchPanel.FirstDash` | src/components/launch-panel.tsx:36 | the first '-' of the range text is the separator when the start has none |
| `LaunchPanel.ReadLaunchMessageRoundTrip` | src/components/launch-panel.tsx:36 | the launch message gives back the rendered start ("All" for empty), end and mix flag whenever the start text holds no '-'; a negative start (`Range: -5-10`) makes the message ambiguous, a negative end does not |
| `LaunchPanel.Panel.constructor` | src/components/launch-panel.tsx:16-19 | no project selected, both range texts empty, mix off |
| `LaunchPanel.Panel.SetSelectedProject` | src/components/launch-panel.tsx:60 | sets the selection and nothing else |
| `LaunchPanel.Panel.SetRange` | src/components/launch-panel.tsx:87-97 | sets the two range texts and nothing else |
| `LaunchPanel.Panel.SetIsMix` | src/components/launch-panel.tsx:107 | sets the mix flag and nothing else |
| `LaunchPanel.Panel.LaunchDisabled` | src/components/launch-panel.tsx:119 | the button is on exactly when nothing is launching and the launch guard would pass |
| `LaunchPanel.Panel.HandleLaunch` | src/components/launch-panel.tsx:21-45 | no selection: error toast only, no log and no invalidation; otherwise a log for the selected id with the launch message, the projects key invalidated, a success toast naming the project |
| `Settings.ThreadCount` | src/features/settings/index.tsx:66 | `parseInt(x) \|\| 1` is never 0, and is what `parseInt` read whenever that was a non-zero number |
| `Settings.LoadedChangedIff` | src/features/settings/index.tsx:44-62 | right after loading, `hasChanges` holds exactly when a count is falsy or a path is missing |
| `Settings.CountTextMatches` | src/features/settings/index.tsx:46-58 | a loaded count's text equals `String(count)` exactly when the count is truthy |
| `Settings.LoadThenSave` | src/features/settings/index.tsx:44-71 | saving straight after loading sends the stored counts (1 for a falsy one) and the stored paths ("" for a missing one) |
| `Settings.CountRoundTrip` | src/features/settings/index.tsx:46-66 | a loaded count field is read back by `parseInt(x) \|\| 1` as `count \|\| 1` |
| `Settings.ThreadCountOfNumeral` | src/features/settings/index.tsx:66 | typing n's numeral, followed by a tail that does not start with a digit, `x` or `X` (a fraction such as ".5", say), sends n (1 for 0) |
| `Settings.EditTelegramThreadsThenSave` | src/features/settings/index.tsx:121 | after loading clean settings and typing a new Telegram count, the save sends that count and the other three values as stored |
| `Settings.Form.constructor` | src/features/settings/index.tsx:38-42 | the four inputs start empty and `hasChanges` false |
| `Settings.Form.LoadEffect` | src/features/settings/index.tsx:44-51 | with settings, the inputs show the loaded texts; without, they are left as they were |
| `Settings.Form.ChangesEffect` | src/features/settings/index.tsx:53-62 | with settings, `hasChanges` is the comparison of every input with its stored value |
| `Settings.Form.OnSettings` | src/features/settings/index.tsx:44-62 | after both effects, `hasChanges` holds exactly when the settings are not clean, so clean settings leave Save disabled |
| `Settings.Form.Edit` | src/features/settings/index.tsx:121-181 | one input takes the typed text, the others keep theirs, and `hasChanges` is recomputed |
| `Settings.Form.SaveEnabled` | src/features/settings/index.tsx:198 | Save is possible only with changes and no save pending |
| `Settings.Form.HandleSave` | src/features/settings/index.tsx:19-36 | the payload sent has non-zero counts; a non-OK response changes nothing else; an OK one invalidates exactly the settings key and shows the saved toast |
| `Sidebar.CurrentType` | src/components/ui/sidebar.tsx:34-37 | the type is Chrome exactly on "/chrome" |
| `Sidebar.HighlightedButton` | src/components/ui/sidebar.tsx:40 | a button is highlighted exactly on "/" and "/chrome", and it is the current type's button |
| `Sidebar.HighlightFollowsRoute` | src/components/ui/sidebar.tsx:34-40 | "/" highlights Telegram, "/chrome" highlights Chrome, other routes highlight nothing |
| `Sidebar.SaveCollapsed` | src/components/ui/sidebar.tsx:18-27 | loading after saving gives the saved flag, and no other storage key changes |
| `Sidebar.LoadCollapsedOnlyTrue` | src/components/ui/sidebar.tsx:18-22 | only the stored text "true" loads as collapsed; nothing stored loads as expanded |
| `Sidebar.Nav.constructor` | src/components/ui/sidebar.tsx:17-47 | the flag is loaded from storage and written back, and the type follows the route |
| `Sidebar.Nav.ToggleCollapsed` | src/components/ui/sidebar.tsx:67 | the flag flips and storage then loads as the new flag |
| `Sidebar.Nav.OnLocationChange` | src/components/ui/sidebar.tsx:44-47 | the type follows the new route |
| `Sidebar.Nav.TelegramClick` | src/components/ui/sidebar.tsx:49-52 | the type becomes Telegram, which is the type of the route it navigates to |
| `Sidebar.Nav.ChromeClick` | src/components/ui/sidebar.tsx:54-57 | the type becomes Chrome, which is the type of the route it navigates to |
| `Sidebar.OpenCookieSays` | src/components/ui/sidebar.tsx:246-304 | the cookie starts with `sidebar_state=true;` or `sidebar_state=false;` as the value written, and ends with `; path=/; max-age=604800` (one week) for both |
| `Sidebar.StateOf` | src/components/ui/sidebar.tsx:332 | `state` is expanded exactly when the sidebar is open |
| `Sidebar.TooltipHidden` | src/components/ui/sidebar.tsx:663 | the `hidden` expression is false exactly on a collapsed desktop sidebar |
| `Sidebar.ShortcutOnlyB` | src/components/ui/sidebar.tsx:317-320 | only "b" fires the shortcut, never without Meta or Ctrl, and "b" with either always does |
| `Sidebar.Provider.constructor` | src/components/ui/sidebar.tsx:274-292 | the internal state starts at `defaultOpen`, true when it is not passed, so an uncontrolled sidebar mounted without it starts expanded; the mobile sheet starts closed |
| `Sidebar.Provider.Open` | src/components/ui/sidebar.tsx:293 | `open` is the controlled prop when given, else the internal state |
| `Sidebar.Provider.SetOpen` | src/components/ui/sidebar.tsx:294-307 | a function argument is applied to the current `open`; a parent setter alone receives the value, otherwise the internal state takes it; the cookie records it |
| `Sidebar.Provider.ToggleSidebar` | src/components/ui/sidebar.tsx:310-312 | mobile: flips the sheet and nothing else; desktop: sets `open` to its negation, leaving the sheet |
| `Sidebar.Provider.HandleKeyDown` | src/components/ui/sidebar.tsx:317-323 | the shortcut is prevented and has exactly the toggle's effect: on mobile the sheet flips and nothing else changes; on a desktop `!open` is reported or becomes the internal state and is written to the cookie, and an uncontrolled `open` flips; other keys change nothing |

## Left out

- The query cache itself: refetching, deduplication, stale data and subscriptions. `@tanstack/react-query` is not part of this model. An invalidation is only recorded in a ghost log of keys.
- Promises and the HTTP PATCH call. The settings response is a boolean saying whether it was OK.
- The mock calls never fail, so every task and log mutation's `onSuccess` runs.
- `localStorage` is a map from strings to strings. `document.cookie` is the string last written. `window.location.href` is the target last assigned. Adding and removing the keydown listener is not modelled.
- `Math.random()` ids and `new Date().toISOString()` timestamps are parameters.
- The random skeleton width is not modelled.
- JSX, class names, icons and animations are not modelled.
- src/features/dashboard/index.tsx and src/features/tasks/components/tasks-primary-buttons.tsx hold no logic beyond layout, so they are not part of this model.
- The call into `sonner` is not modelled. `Toaster.Toast` records the message it would be given.
- React's scheduling is not modelled. Each handler is followed by the effects its state change triggers, run to completion.
- A parent that receives `onOpenChange` and then passes a new `open` prop is outside this model.
- `JsText.ParseInt`: a numeral beyond 2^53, which JavaScript rounds, is modelled as an exact integer. `-0` is modelled as 0; both are falsy and print as "0".
- `Settings.StoredSettings`: stored counts are integers. A stored count that is a non-integer number or a string is not modelled.
- NatToString: JavaScript's `String(n)` switches to exponent notation (`"1e+21"`) once |n| reaches 10^21; the model always writes plain digits, so its numerals are those of JavaScript only below 10^21.
- IntToString: the same gap; `String(n)` for |n| ≥ 10^21 is in exponent notation, not modelled.
- ParseIntOfIntToString: holds in JavaScript only for |n| < 10^21; at or above it `parseInt(String(n))` reads the digits before the 'e' (1 for 10^21).
- CountRoundTrip: holds in JavaScript only for stored counts with |count| < 10^21; a larger count loads as exponent notation and is read back as its leading digit.
- LoadThenSave: the same bound on both stored counts; a stored count of 10^21 or more is saved as its leading digit in JavaScript, not as stored.
- EditTelegramThreadsThenSave: the same bound on the stored Chrome count and on the typed n.
- Form.Edit accepts any text, while a `type="number"` input only delivers "" or a floating-point numeral; the model over-approximates what the two thread inputs can hold.
- Sidebar.TooltipHidden: states only the `hidden` expression; a menu button without a `tooltip` prop draws no tooltip at all, and a tooltip object carrying its own `hidden` overrides the expression, since it is spread after it.
- `Sidebar.Provider.isMobile` is fixed when the provider is constructed; `useIsMobile()` follows the viewport and can change between toggles, which the model does not capture.
- `JsText.IsWhiteSpace`: strings are sequences of characters, not UTF-16 code units. The whitespace set is ECMAScript's WhiteSpace and LineTerminator characters.
