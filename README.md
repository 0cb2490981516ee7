# Portal UI core, modelled in Dafny

A model of the interactive core of a science-platform web portal, a mock-data
React front end. Eight components are covered:

- **Session launcher modal**: the quick-launch and custom-session forms, the
  `canfar create` command that a launch builds, the command preview under the
  form, the environment-variable list editor, the reaction to a change of
  session type, and the idle → launching → success life cycle.
- **Workloads page**: job-row expansion, job selection, the select-all header
  checkbox, the "Cancel n Jobs" bulk bar, the job status badges and the limit
  of three interactive sessions.
- **Command palette**: case-insensitive substring filtering of its fixed
  entries, grouping in a fixed category order, the no-results view and the
  keyboard rules (⌘/Ctrl-K and Escape).
- **Line chart**: which points each segment of the smoothed path joins, the
  padded value range, the placement of points and the choice of x-axis labels.
- **Progress bar**: the clamped percentage, including JavaScript's division by
  zero, the prop defaults and the size and variant classes.
- **Container-builder page**: its local `cn` class joiner and the build-status
  dot colour.
- **Error boundary and `useErrorHandler`**: the state held after an error,
  reset, what is rendered, and the re-throw.
- **Active-sessions card**: the status indicator and the single open row menu.

Each component is one module. `Wrappers` holds `Option`. `Strings` holds the
JavaScript string operations the components use: number formatting,
`toLowerCase`, `includes`, `join`, `startsWith` and `split(...)[0]`.
Component state that the source updates through state hooks is a class:

- `LauncherModal.Launcher`
- `SessionsPage.Sessions`
- `ErrorHandling.ErrorBoundary`
- `ErrorHandling.ErrorHandler`
- `ActiveSessions.ActiveSessionsCard`

Each state-changing event handler is a method whose `ensures` give the new
state, through a specification function where one exists. The palette's key
handler changes no palette state, so it is the function `OnKeyDown`. The rest
of the model is functions and lemmas.

Random values are parameters of the operations that use them: the
four-character suffix of a generated session name, and the launched session
id. The modal's 2-second simulated launch delay splits `handleLaunch` into
`BeginLaunch` and `CompleteLaunch`.

## Model

| member | source | states |
|---|---|---|
| LauncherModal.DefaultForm | components/session-launcher/launcher-modal.tsx:62-71 | the initial form: kind `notebook`, no image, a generated `notebook-…` name, flexible resources, 2 cpu, 8 GB, no gpu, no variables |
| LauncherModal.BuildLaunchCommand | components/session-launcher/launcher-modal.tsx:110-128 | the string built by successive appends and the loop over the variables equals `LaunchCommand`: the found template's kind and image on the quick tab, otherwise the flags in order, then kind and image |
| LauncherModal.FindTemplate | components/session-launcher/launcher-modal.tsx:113 | `find` returns a template with that id that no earlier template shares, and returns nothing iff no template has the id |
| LauncherModal.RenderFlagsAppend | components/session-launcher/launcher-modal.tsx:118-127 | writing out a flag list is compositional: two lists written out in turn give the written-out concatenation |
| LauncherModal.EnvFlagsMembers | components/session-launcher/launcher-modal.tsx:124-126 | every `--env` flag comes from a variable of the list with non-empty key and value, and every such variable yields its flag |
| LauncherModal.EnvFlagsAppend | components/session-launcher/launcher-modal.tsx:124-126 | the `--env` flags of a list in two parts are those of each part, in order |
| LauncherModal.EnvFlagsStep | components/session-launcher/launcher-modal.tsx:124-126 | one more loop iteration appends ` --env key=value` exactly when both parts are non-empty |
| LauncherModal.FlagsOfMembers | components/session-launcher/launcher-modal.tsx:118-126 | a flag of the custom command comes from the name, the resources, the gpu or the variables, and from nothing else |
| LauncherModal.RenderFixedFlags | components/session-launcher/launcher-modal.tsx:119-123 | the name, resource and gpu flags are written out as ` --name n`, ` --cpu c --memory m` and ` --gpu g`, each only when its condition holds |
| LauncherModal.NameFlagIffNamed | components/session-launcher/launcher-modal.tsx:119 | `--name` is passed iff the name is non-empty, and then with that name |
| LauncherModal.ResourceFlagsIffFixed | components/session-launcher/launcher-modal.tsx:120-122 | `--cpu` and `--memory` are passed iff resources are fixed, with the form's values |
| LauncherModal.GpuFlagIffPositive | components/session-launcher/launcher-modal.tsx:123 | `--gpu` is passed iff the gpu count is positive, whatever the resource mode |
| LauncherModal.EnvFlagIffCompleteVar | components/session-launcher/launcher-modal.tsx:124-126 | `--env k=v` is passed iff the list holds `k=v` with both parts non-empty |
| LauncherModal.IncompleteVarContributesNothing | components/session-launcher/launcher-modal.tsx:125 | a variable with an empty key or value, wherever it sits, leaves the flags as they would be without it |
| LauncherModal.FlagOrderFixed | components/session-launcher/launcher-modal.tsx:118-127 | flags always come in the order name, cpu, memory, gpu, env |
| LauncherModal.CustomCommand | components/session-launcher/launcher-modal.tsx:110-128 | the custom command begins `canfar create` and ends with a space, the kind, a space and the image, the flags sitting between |
| LauncherModal.LaunchCommand | components/session-launcher/launcher-modal.tsx:110-128 | every launch command begins `canfar create`; whenever the template path is not taken it ends with the form's kind and image |
| LauncherModal.EnvArgsRenderEnvFlags | components/session-launcher/launcher-modal.tsx:692-697 | the preview's filter-then-map of the variables writes out the same text as the launch loop's `--env` flags |
| LauncherModal.PreviewCommand | components/session-launcher/launcher-modal.tsx:692-697 | the preview begins `canfar create` and ends with the kind and then the image, or `<image>` when none is chosen |
| LauncherModal.RenderedFlagsArePreviewPieces | components/session-launcher/launcher-modal.tsx:692-697 | the launch command's written-out flags are exactly the preview's name, resource, gpu and env pieces |
| LauncherModal.PreviewMatchesCustomCommand | components/session-launcher/launcher-modal.tsx:692-697 | with an image chosen the preview is exactly the custom launch command; without one it is the command followed by `<image>` |
| LauncherModal.CanLaunchIff | components/session-launcher/launcher-modal.tsx:141-143 | on the quick tab Launch is enabled iff a template is selected, whatever the form holds; on the custom tab iff kind and image are both non-empty, whatever the selection |
| LauncherModal.LaunchablePreviewIsExact | components/session-launcher/launcher-modal.tsx:141-143 | on the custom tab, whenever Launch is enabled the preview equals the command that is launched |
| LauncherModal.QuickLaunchUsesTemplate | components/session-launcher/launcher-modal.tsx:112-116 | with a non-empty id selected on the quick tab, the first template with that id gives `canfar create <kind> <image>`, an id no template has gives the bare `canfar create`, and the form never matters |
| LauncherModal.EmptyTemplateIdLaunchesCustomForm | components/session-launcher/launcher-modal.tsx:112-143 | an empty selected id enables launching, yet the command is then built from the custom form |
| LauncherModal.AddEnvVar | components/session-launcher/launcher-modal.tsx:372-377 | adds exactly one blank variable at the end and keeps the others |
| LauncherModal.AddEnvVarKeepsCommand | components/session-launcher/launcher-modal.tsx:372-377 | a new blank variable does not change the launch command |
| LauncherModal.RemoveEnvVar | components/session-launcher/launcher-modal.tsx:379-384 | drops the entry at the index and keeps the rest in order; an index outside the list changes nothing |
| LauncherModal.RemoveEnvVarFlags | components/session-launcher/launcher-modal.tsx:379-384 | removing a variable drops exactly its own `--env` flag, if it had one |
| LauncherModal.UpdateEnvVar | components/session-launcher/launcher-modal.tsx:386-393 | sets one field of the entry at the index; the other field and every other entry stay as they were; the length is unchanged |
| LauncherModal.ParsedOr | components/session-launcher/launcher-modal.tsx:599-631 | parsing with a fallback: an unreadable number or 0 gives the fallback, any other number is kept |
| LauncherModal.ChooseKind | components/session-launcher/launcher-modal.tsx:74-83 | a new kind clears the image and regenerates the name unless it already starts with the kind's first dash segment; choosing the current kind changes nothing; resources and variables are kept |
| LauncherModal.ChooseKindNameMatchesKind | components/session-launcher/launcher-modal.tsx:74-78 | after a change of kind the name always starts with the kind's first dash segment |
| LauncherModal.ViewOf | components/session-launcher/launcher-modal.tsx:145-195 | closed shows nothing; when open, the success panel shows iff the launch succeeded, the launching panel iff launching, the form iff idle, and the declared `error` state shows an empty panel |
| LauncherModal.Launcher.constructor | components/session-launcher/launcher-modal.tsx:54-71 | quick tab, idle, no session id, no template, the default form |
| LauncherModal.Launcher.Reset | components/session-launcher/launcher-modal.tsx:85-99 | everything except the active tab returns to the start, and launching is then disabled |
| LauncherModal.Launcher.Close | components/session-launcher/launcher-modal.tsx:101-104 | closing resets everything except the active tab and always asks the parent to close |
| LauncherModal.Launcher.ClickBackdrop | components/session-launcher/launcher-modal.tsx:150-152 | the backdrop closes and resets the modal iff it is idle; otherwise nothing changes |
| LauncherModal.Launcher.SelectTab | components/session-launcher/launcher-modal.tsx:217-231 | the tab changes and nothing else; Launch is then enabled by the selection on the quick tab and by kind and image on the custom tab |
| LauncherModal.Launcher.SelectTemplate | components/session-launcher/launcher-modal.tsx:252 | the selection becomes the picked template, which enables Launch on the quick tab |
| LauncherModal.Launcher.SelectKind | components/session-launcher/launcher-modal.tsx:407 | the form becomes `ChooseKind` of the old form |
| LauncherModal.Launcher.SetImage | components/session-launcher/launcher-modal.tsx:461-505 | only the image changes; on the custom tab Launch is then enabled iff kind and the new image are non-empty |
| LauncherModal.Launcher.SetName | components/session-launcher/launcher-modal.tsx:521 | only the name changes |
| LauncherModal.Launcher.SetResourceMode | components/session-launcher/launcher-modal.tsx:543-571 | only the resource mode changes |
| LauncherModal.Launcher.SetCpu | components/session-launcher/launcher-modal.tsx:599 | cpu becomes the parsed number, or 1 |
| LauncherModal.Launcher.SetMemory | components/session-launcher/launcher-modal.tsx:615 | memory becomes the parsed number, or 1 |
| LauncherModal.Launcher.SetGpu | components/session-launcher/launcher-modal.tsx:631 | gpu becomes the parsed number, or 0 |
| LauncherModal.Launcher.AddVariable | components/session-launcher/launcher-modal.tsx:372-377 | the variable list becomes `AddEnvVar` of the old list |
| LauncherModal.Launcher.RemoveVariable | components/session-launcher/launcher-modal.tsx:379-384 | the variable list becomes `RemoveEnvVar` of the old list |
| LauncherModal.Launcher.UpdateVariable | components/session-launcher/launcher-modal.tsx:386-393 | the variable list becomes `UpdateEnvVar` of the old list |
| LauncherModal.Launcher.BeginLaunch | components/session-launcher/launcher-modal.tsx:106-128 | the state becomes launching and the returned command is `LaunchCommand` of the tab, selection and form |
| LauncherModal.Launcher.CompleteLaunch | components/session-launcher/launcher-modal.tsx:135-138 | the launch succeeds with the given session id, which is known exactly when the state is success |
| SessionsPage.ConfigFor | app/sessions/page.tsx:31-37 | an unlisted status falls back to the queued badge; every status gets one of the five entries |
| SessionsPage.ConfigForDistinguishesStatuses | app/sessions/page.tsx:31-37 | the five listed statuses have pairwise different badges |
| SessionsPage.SpinnerOnlyForRunning | app/sessions/page.tsx:328 | the spinning icon is shown iff the job is running |
| SessionsPage.IdSet | app/sessions/page.tsx:64 | the id set holds exactly the listed ids |
| SessionsPage.DistinctIdSetSize | app/sessions/page.tsx:60-66 | with distinct ids the id set is as large as the job list |
| SessionsPage.RepeatedIdSetSize | app/sessions/page.tsx:60-66 | a repeated id makes the id set smaller than the job list |
| SessionsPage.ToggleMember | app/sessions/page.tsx:50-58 | the id changes membership and no other id does |
| SessionsPage.ToggleMemberTwice | app/sessions/page.tsx:50-58 | ticking the same row twice restores the selection |
| SessionsPage.ToggleAll | app/sessions/page.tsx:60-66 | select-all either clears the selection or selects every listed job |
| SessionsPage.ToggleAllWithDistinctIds | app/sessions/page.tsx:60-66 | with distinct ids, select-all clears iff every job is selected, and otherwise selects them all |
| SessionsPage.ToggleAllWithRepeatedIds | app/sessions/page.tsx:60-66 | with a repeated id, select-all on a full selection selects everything again instead of clearing |
| SessionsPage.HeaderChecked | app/sessions/page.tsx:285 | a checked header implies there are jobs; with distinct ids and a selection among them, it is checked iff there are jobs and all of them are selected |
| SessionsPage.FullSelectionSize | app/sessions/page.tsx:285 | with distinct ids and a selection among them, the selection is as large as the job list iff it holds every job |
| SessionsPage.CancelLabel | app/sessions/page.tsx:240-249 | the bulk bar shows iff the selection is non-empty |
| SessionsPage.CancelLabelCountsSelection | app/sessions/page.tsx:249 | two shown labels are equal only for selections of the same size |
| SessionsPage.ToolbarFor | app/sessions/page.tsx:68-117 | the limit banner shows iff three or more sessions are active, and "New Session" is enabled iff it does not |
| SessionsPage.Sessions.constructor | app/sessions/page.tsx:41-42 | no row expanded, nothing selected |
| SessionsPage.Sessions.ToggleJobExpansion | app/sessions/page.tsx:46-48 | the row flips between expanded and collapsed, and no other row is expanded |
| SessionsPage.Sessions.ToggleJobSelection | app/sessions/page.tsx:50-58 | the new selection is `ToggleMember` of the old one and stays among the listed jobs |
| SessionsPage.Sessions.ToggleAllJobs | app/sessions/page.tsx:60-66 | the new selection is `ToggleAll` of the old one and stays among the listed jobs |
| CommandPalette.Filter | components/ui/command-palette.tsx:32-38 | keeps at most all entries, and keeps an entry iff its lower-cased label contains the lower-cased query |
| CommandPalette.Matches | components/ui/command-palette.tsx:38 | an entry matches iff the lower-cased query occurs in its lower-cased label |
| CommandPalette.FilterNoRepeats | components/ui/command-palette.tsx:38 | filtering a list without repeats keeps it without repeats |
| CommandPalette.FilterAppend | components/ui/command-palette.tsx:38 | the filter keeps entries in their declared order |
| CommandPalette.EmptyQueryKeepsAll | components/ui/command-palette.tsx:38 | the empty query keeps every entry |
| CommandPalette.FilterIgnoresQueryCase | components/ui/command-palette.tsx:38 | lower-casing the query does not change what is kept |
| CommandPalette.InCategory | components/ui/command-palette.tsx:71 | keeps exactly the entries of the category |
| CommandPalette.Groups | components/ui/command-palette.tsx:70-72 | every group shown is a category of the order, with its non-empty list of entries |
| CommandPalette.GroupShownIffNonEmpty | components/ui/command-palette.tsx:72 | a category is shown iff it has entries |
| CommandPalette.GroupsFollowOrder | components/ui/command-palette.tsx:70 | with no repeated category, groups appear in category order, so no category appears twice |
| CommandPalette.CategoryOrderDistinct | components/ui/command-palette.tsx:70 | the five categories are distinct |
| CommandPalette.ItemInItsOwnGroup | components/ui/command-palette.tsx:70-72 | an entry appears in its own category's group and in no other |
| CommandPalette.GroupsDistinctCategories | components/ui/command-palette.tsx:70 | with no repeated category, two groups with the same category are the same group |
| CommandPalette.ListedInOneGroup | components/ui/command-palette.tsx:70-72 | an entry of a list without repeats, whose category is in the order, sits in exactly one group, its own category's, and no group repeats an entry |
| CommandPalette.ItemCategoriesAreOrdered | components/ui/command-palette.tsx:32-70 | every declared entry's category is one of the shown categories |
| CommandPalette.ViewOf | components/ui/command-palette.tsx:30-67 | closed shows nothing; an open palette shows "no results" iff no entry is kept |
| CommandPalette.ResultsListOnlyKeptItems | components/ui/command-palette.tsx:38-72 | an open palette lists only entries whose label matches the query, each under its own category |
| CommandPalette.ResultsListEveryKeptItem | components/ui/command-palette.tsx:64-72 | an open palette with matches lists every kept entry in exactly one group, its own category's, and no group lists an entry twice |
| CommandPalette.KeptItemListedOnce | components/ui/command-palette.tsx:32-72 | each entry the query keeps sits in exactly one of the grouped results, its own category's, and no group repeats an entry |
| CommandPalette.OnKeyDown | components/ui/command-palette.tsx:16-25 | the default is prevented iff ⌘/Ctrl-K; `onClose` is called at most once, and exactly when Escape is pressed or ⌘/Ctrl-K is pressed while open |
| Chart.CreateSmoothPath | components/ui/chart.tsx:23-46 | nothing for fewer than two points; a line for two; otherwise a move to the first point and one curve per following point, joining points `i` and `i+1` with neighbours clamped at the ends; every segment names existing points and starts where the previous one ended |
| Chart.MaxOf | components/ui/chart.tsx:60 | the largest value, and one of the values |
| Chart.MinOf | components/ui/chart.tsx:61 | the smallest value, and one of the values |
| Chart.Range | components/ui/chart.tsx:62 | never zero; it is the padded span whenever that span is non-zero, and 1 otherwise |
| Chart.PointY | components/ui/chart.tsx:73 | the bottom of the scale is drawn on the bottom edge of the plot area and, when the scale has a span, its top on the top edge |
| Chart.NonNegativeDataStaysInPlotArea | components/ui/chart.tsx:60-73 | for non-negative data every point's y lies inside the plot area |
| Chart.NegativeDataLeavesPlotArea | components/ui/chart.tsx:60-73 | for all-negative data the margins shrink the scale: its top falls below the largest value and its bottom above the smallest, so with a positive range the smallest value is drawn below the plot area |
| Chart.InvertedScaleIsUpsideDown | components/ui/chart.tsx:60-73 | when the scale's top falls below its bottom the range is negative and a smaller value is drawn higher |
| Chart.CloseNegativeDataInvertsScale | components/ui/chart.tsx:60-73 | the data [-10, -9.9] inverts the scale and draws -10 above -9.9 |
| Chart.PointX | components/ui/chart.tsx:65-72 | the first point sits at the left padding, and the last at the right edge of the plot when there are two or more |
| Chart.PointXIncreasing | components/ui/chart.tsx:72 | points are placed left to right in index order, within the plot area |
| Chart.FirstIndex | components/ui/chart.tsx:84 | `indexOf` is -1 iff the value is absent, else the first position holding it |
| Chart.KeepFirstFrom | components/ui/chart.tsx:83-85 | a value is kept iff its first occurrence lies in the scanned part |
| Chart.KeepFirstKeepsValues | components/ui/chart.tsx:83-85 | keeping first occurrences keeps every value once and drops only repeats |
| Chart.LabelIndices | components/ui/chart.tsx:83-85 | one point is labelled [0], two are labelled [0, 1], and more are labelled first, middle and last; every index names an existing point and none repeats |
| Chart.LayoutOf | components/ui/chart.tsx:58-75 | no chart iff there is no data; otherwise the range is `Range`, point i sits at `PointX(i, n)` and `PointY` of its value, and the labels are `LabelIndices(n)`, each naming an existing point |
| Progress.WithDefaults | components/ui/progress.tsx:16 | an omitted prop gets max 100, no label, the default variant and medium size; a given prop is kept |
| Progress.Percentage | components/ui/progress.tsx:19 | the result lies in [0, 100]; it is undefined (NaN) iff value and max are both 0 |
| Progress.PercentageExactInRange | components/ui/progress.tsx:19 | for a value between 0 and a positive max the bar shows the exact share |
| Progress.PercentageClamps | components/ui/progress.tsx:19 | for a positive max, at or below 0 the bar is empty and at or above max it is full |
| Progress.PercentageMonotone | components/ui/progress.tsx:19 | for a positive max, a larger value never shows a smaller bar |
| Progress.HeightClasses | components/ui/progress.tsx:24-28 | each size switches on exactly its own height class |
| Progress.BarClasses | components/ui/progress.tsx:31-36 | each variant switches on exactly its own colour class |
| Progress.ActiveKeysOneHot | components/ui/progress.tsx:24-36 | a class object with exactly one true condition yields that key alone |
| Progress.LabelShown | components/ui/progress.tsx:40-45 | value and max are shown iff the label is requested |
| Builder.Kept | app/builder/page.tsx:162-164 | keeps at most all arguments, and every kept text is non-empty |
| Builder.KeptAppend | app/builder/page.tsx:162-164 | filtering keeps the arguments' order across a split |
| Builder.Cn | app/builder/page.tsx:162-164 | the class string is empty iff no argument is kept, and a single kept class comes back unchanged |
| Builder.CnEmptyIffAllFalsy | app/builder/page.tsx:162-164 | the class string is empty iff every argument is falsy |
| Builder.CnSingle | app/builder/page.tsx:162-164 | a single class name comes back unchanged |
| Builder.CnDropsFalsy | app/builder/page.tsx:162-164 | a falsy argument anywhere can be dropped without changing the result |
| Builder.CnAppend | app/builder/page.tsx:162-164 | two argument lists join to the two results with one space between them, or to the non-empty one |
| Builder.DotColor | app/builder/page.tsx:114 | green iff the build succeeded, red otherwise |
| Builder.DotClasses | app/builder/page.tsx:114 | the dot's class string is the shape classes, a space and the colour |
| ErrorHandling.DerivedStateFromError | components/ui/error-boundary.tsx:23-25 | after a throw the boundary has an error, and it is the thrown one |
| ErrorHandling.RenderBoundary | components/ui/error-boundary.tsx:36-69 | children iff there is no error; the fallback iff there is an error and a non-empty fallback; otherwise the alert, showing the message iff in development with an error held |
| ErrorHandling.ResetShowsChildren | components/ui/error-boundary.tsx:32-68 | after "Try Again" the children are rendered again |
| ErrorHandling.CaughtErrorIsReported | components/ui/error-boundary.tsx:23-59 | a caught error always hides the children; without a fallback the alert shows its message in development only |
| ErrorHandling.ErrorBoundary.constructor | components/ui/error-boundary.tsx:18-21 | no error held |
| ErrorHandling.ErrorBoundary.Catch | components/ui/error-boundary.tsx:23-25 | the state becomes the derived error state, and the error flag still matches the held error |
| ErrorHandling.ErrorBoundary.HandleReset | components/ui/error-boundary.tsx:32-34 | the error is cleared |
| ErrorHandling.ErrorHandler.HandleError | components/ui/error-boundary.tsx:80-89 | the error is kept and is then thrown again to the boundary |
| ErrorHandling.ErrorHandler.ResetError | components/ui/error-boundary.tsx:76-89 | the error is cleared and nothing is thrown |
| ErrorHandling.ErrorHandler.Rethrows | components/ui/error-boundary.tsx:85-89 | an error is thrown iff one is held, and it is the held one |
| ActiveSessions.IndicatorFor | components/dashboard/active-sessions.tsx:61-73 | green iff running, amber iff pending, grey otherwise; the ping shows iff running |
| ActiveSessions.PingOnlyOnGreen | components/dashboard/active-sessions.tsx:61-73 | only a green dot pings |
| ActiveSessions.RowMenuFor | components/dashboard/active-sessions.tsx:113-118 | a row's menu shows iff it is the open one, and `aria-expanded` says so |
| ActiveSessions.BodyFor | components/dashboard/active-sessions.tsx:43-53 | the empty state iff there are no sessions; otherwise one row per session, in order |
| ActiveSessions.AtMostOneMenuShown | components/dashboard/active-sessions.tsx:24-118 | with distinct session ids, no two rows show their menus at once |
| ActiveSessions.ActiveSessionsCard.ClickMenuButton | components/dashboard/active-sessions.tsx:109 | the row's menu toggles, and every other row's menu is hidden |
| Strings.IntToStringInjective | app/sessions/page.tsx:249 | different numbers are written as different decimal strings |
| Strings.Includes | components/ui/command-palette.tsx:38 | `includes` holds iff the substring occurs at some position |

## Left out

- Random values are parameters: the session-name suffix (`Math.random().toString(36)`) and the launched session id.
- The 2-second simulated launch delay is the gap between `BeginLaunch` and `CompleteLaunch`. The model does not capture anything happening in that gap.
- `console.log` of the launch command and `console.error` in the boundary and the hook are not modelled; the logged command is the result of `BuildLaunchCommand`.
- The parent's `onClose` callback is outside the components; `Close` and `ClickBackdrop` report whether it is called.
- The form's close and Cancel buttons and the success panel's Close and "View Sessions" buttons all call `Close`; they are not separate operations.
- The lists of container images, session types and quick-launch templates are mock data; they are parameters.
- The template picker's own component and the image list shown on the custom tab are outside the model; their choice reaches `SelectTemplate` and `SetImage` as a parameter.
- Strings.IntToString: numbers are unbounded integers. JavaScript's exponent form for magnitudes of 1e21 and above, and `parseInt`'s rounding above 2^53, are not modelled; through `ParsedOr` this reaches the `--cpu`, `--memory` and `--gpu` text.
- `parseInt` itself is outside the model: `SetCpu`, `SetMemory` and `SetGpu` take its result, with `None` for NaN.
- Chart.CreateSmoothPath: models which points each segment joins, not the control-point arithmetic (tension 0.3) or the SVG number formatting.
- The chart's area path, grid, tooltip, current value and label text are left out; so are the bar chart in the same file and the `height` and `unit` props.
- Chart values are reals. JavaScript floating-point rounding, and NaN or infinite data, are not modelled.
- Progress.Percentage: a real model of the quotient; floating-point rounding is not modelled. The one NaN it models is 0 / 0.
- Progress.LabelShown: returns the two numbers; their `toFixed(1)` text is left out.
- Strings.ToLower: lower-cases ASCII letters only; JavaScript's full Unicode case mapping is not modelled.
- SessionsPage.ConfigFor: a status that is a name inherited by every JavaScript object (`toString`, `constructor`, …) would find a non-badge value there; the model treats every unlisted status as unknown.
- The workloads page's tab switch, compact mode, interactive-session cards, queue view, router navigation and the counts in its texts are presentation; they are not modelled.
- The command palette's query input is a parameter of `ViewOf`; its overlay click and its entry buttons call `onClose` directly (an entry click first logs the entry with `console.log`), and the palette's icons are left out.
- The active-sessions card's menu entries have no handlers in the source; the "running" count badge and the session details text are presentation.
- ErrorHandling.RenderBoundary: the fallback node is an optional string, and a React node's truthiness is taken to be a non-empty string.
- `process.env.NODE_ENV` is the `development` parameter.
- The project-wide `cn` helper in `lib/utils` (clsx and tailwind-merge) is not part of this model; only the builder page's own `cn` is.
- Icons, styling classes other than those listed above, animations, and React's rendering and scheduling are left out.
