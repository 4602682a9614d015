# ollamanager in Dafny

ollamanager is a terminal front end for a local Ollama daemon. The user picks a
model in a tabbed selector: the online catalog on the install tab, installed
models on the manage tab, loaded models on the monitor tab. The program then
installs, updates, deletes, loads or frees that model and follows a pull on a
progress screen. This project models that core and proves its properties:

- **Selector** (tui/model_selector.go) — the key- and resize-driven state
  machine of `ModelSelector.Update` and `SetSelectedModel`. `Step` is the
  reference definition of one call. The class `ModelSelector` updates its
  fields in place, method by method, and each method is proved equal to its
  piece of `Step`. Lemmas state the tab clamping, the quit keys, the help
  overlay, filtering, the manage shortcuts, the one-slot selection of `enter`
  and the resize layout.
- **TabRow** — the integer arithmetic of `View`: tab widths, label truncation
  and the help overlay's key letters.
- **Picker** (tui/model_picker.go) — the catalog stages, list building, the
  empty-selection check and the action menu. `Resolve` is the reference
  definition and `ModelPicker` follows the Go stages.
- **Progress** (internal/tui/tui.go) — the pull renderer `InstallModel`. It
  covers the status labels and their inverse, the effects of each message,
  which lines are printed as finished over a whole stream, and `View`'s
  blank cases.
- **Install** (internal/install/install.go) and **Manager**
  (manager/manager.go) — the two `Run` flows. Each is modelled with the
  daemon request it issues and its results. Install also covers
  `deleteModel`'s status mapping, the split of `base:tag` names, and the
  loop that forwards pull responses to the renderer.
- **Tags** — `GetAvailableTags`, which is identical in both flows.
- **LegacySelector** (internal/tui/manager.go) — the older single-list
  selector.
- **Whitespace**, **HtmlSearch**, **SpanStats** — the catalog scrapers' text
  normalisers, child-node searches and span-text loop.
- **InstalledModels** (internal/tui/get_installed_models.go) — `ByteCountSI`.
- **Report** (utils/utils.go) — `PrintActionResult`.
- **GoStrings** — the Go `strings` and `%d` behaviour the rest relies on.

Modelling choices:

- The bubbles list widget is reduced to its items, cursor, filtering flag
  and size. Its reaction to a message is a caller-supplied function.
- A failed type assertion on the highlighted item is the `Panic` command.
- Downloads, daemon calls, spinners, forms and the bubbletea programs become
  input values: their outcome, error or the user's answer.
- The repository holds several revisions, and each module uses the
  vocabulary of the file it models:
  - the selector, picker and report use the install/manage/monitor tabs and
    the update/delete/chat actions;
  - manager/manager.go uses the install/running/installed tabs of
    tabs/tabs.go;
  - internal/install/install.go and internal/tui/manager.go use the string
    tabs of internal/tui/manager.go:47-51.
- tabs.MANAGE, tabs.MONITOR and tabs.ManageAction are not defined in
  tabs/tabs.go. The model takes their string values to be "Manage",
  "Monitor", "Update", "Delete" and "Chat", like the other constants of that
  file.

## Model

| member | source | states |
|---|---|---|
| Selector.ShortcutAction | tui/model_selector.go:127-147 | exactly the keys `u`, `d`, `c` name a manage action |
| Selector.SelectedItem | tui/model_selector.go:81-87 | the list highlights an item exactly when its cursor is inside the item sequence |
| Selector.GoQuot | tui/model_selector.go:163 | Go's integer `/` truncates toward zero: the remainder lies strictly within one divisor of zero and has the sign of the dividend |
| Selector.StepKeepsConfiguration | tui/model_selector.go:91-188 | no message changes the configured tabs or approved actions, and the active tab stays in range |
| Selector.ForwardKeepsConfiguration | tui/model_selector.go:176-187 | handing a message to the active list keeps tabs, approved actions and active tab |
| Selector.CommitKeepsConfiguration | tui/model_selector.go:78-89 | selecting the highlighted model keeps tabs, approved actions and active tab |
| Selector.TabKeysClamp | tui/model_selector.go:119-126 | `n`/`tab` move right and `p`/`shift+tab` move left, clamped to the first and last tab; the action follows the tab and the program continues |
| Selector.QuitKeys | tui/model_selector.go:113-115 | outside help, `ctrl+c`, `q` and `esc` quit and change nothing |
| Selector.HelpOverlayKeys | tui/model_selector.go:102-111 | with help up, only `ctrl+c`/`q` quit, `?`/`esc` close the overlay, and any other key changes nothing and reaches no list |
| Selector.FilteringCapturesKeys | tui/model_selector.go:98-100 | while the installable or installed list filters, no key quits, switches tab or selects; the key reaches the active list unless help is up |
| Selector.RunningFilterDoesNotCapture | tui/model_selector.go:98 | a filtering running list does not hold keys back: `q` still quits |
| Selector.ShortcutGate | tui/model_selector.go:127-147 | `u`/`d`/`c` fire only on the manage tab with the action approved: then they set the manage action, select the highlighted installed model and quit (panic on no such item); otherwise nothing selection-related changes |
| Selector.EnterFillsOneSlot | tui/model_selector.go:148-150 | `enter` sets the action to the active tab and fills only that tab's slot from the highlighted item; it panics exactly when no item of that kind is highlighted |
| Selector.ResizeLayout | tui/model_selector.go:152-173 | content size is the window less the frame; the info pane shows exactly above width 90; lists take three fifths of the width in that case; help takes 8/10 truncated toward zero; only configured tabs' lists are resized; the message then reaches the active list |
| Selector.ModelSelector.constructor | tui/model_picker.go:128-135 | a fresh selector holds the given lists and configuration, empty slots and the first tab |
| Selector.ModelSelector.SetSelectedModel | tui/model_selector.go:78-89 | panics exactly when the type assertion fails; otherwise the new fields are the selection of the reference definition |
| Selector.ModelSelector.Update | tui/model_selector.go:91-188 | the command and (unless it panicked) the new fields equal `Step` of the old fields |
| Selector.ModelSelector.HandleKey | tui/model_selector.go:97-151 | the key branch agrees with `Step` |
| Selector.ModelSelector.HandleOverlayKey | tui/model_selector.go:102-111 | the help-overlay keys agree with the reference |
| Selector.ModelSelector.HandleBrowseKey | tui/model_selector.go:113-126 | quit, help and tab keys agree with the reference |
| Selector.ModelSelector.HandleSelectKey | tui/model_selector.go:127-150 | shortcut and `enter` keys agree with the reference |
| Selector.ModelSelector.ApplyResize | tui/model_selector.go:152-173 | the resize branch leaves exactly the state `Resize` gives |
| Selector.ModelSelector.ResizeFrameTo | tui/model_selector.go:153-163 | size, info pane and help width follow the window |
| Selector.ModelSelector.ResizeConfiguredLists | tui/model_selector.go:164-173 | each configured list takes the list width and the height below the tab row |
| Selector.ModelSelector.ForwardToList | tui/model_selector.go:176-187 | the active list gets the message unless help is up |
| TabRow.TabWidth | tui/model_selector.go:194 | the tab width is the floor of width over tab count |
| TabRow.FirstWidthBounds | tui/model_selector.go:199-201 | the first tab is narrower than the others by between 1 and `numTabs` cells |
| TabRow.RowFillsWidth | tui/model_selector.go:192-202 | all tab widths add up to the view width less one cell per tab |
| TabRow.Truncate | tui/model_selector.go:210-217 | a label that fits is kept; a longer one is cut to a prefix of `w - 2` characters, or of 1 when `w <= 2` |
| TabRow.RenderTabs | tui/model_selector.go:192-230 | one cell per label, in order, with the computed width, the truncated label and the active flag |
| TabRow.HelpKeyIsShortcut | tui/model_selector.go:361 | the key the help overlay advertises for an action is the key `Update` answers with that action |
| TabRow.HelpBindings | tui/model_selector.go:357-367 | one help binding per approved action, in order, each keyed by that action's shortcut |
| Picker.Wrap | tui/model_picker.go:60-62 | one list item per model, in order |
| Picker.BuildList | tui/model_picker.go:88-94 | the item loop builds a fresh list of the wrapped models |
| Picker.MenuOptions | tui/model_picker.go:158-162 | the menu offers exactly the approved actions, in order |
| Picker.Conclude | tui/model_picker.go:144-180 | the stages after the selector agree with `Finish` |
| Picker.RunningStage | tui/model_picker.go:96-142 | the running stage onwards agrees with the reference |
| Picker.InstalledStage | tui/model_picker.go:69-142 | the installed stage onwards agrees with the reference |
| Picker.ModelPicker | tui/model_picker.go:17-181 | the whole call agrees with `Resolve` |
| Picker.NoTabsNoFetch | tui/model_picker.go:37-39 | with no tabs: the zero selector, no error, no catalog loaded |
| Picker.StagesInOrder | tui/model_picker.go:41-105 | stages run in catalog order, and the installable catalog is loaded exactly when the install tab is configured |
| Picker.InstalledErrorAborts | tui/model_picker.go:84-86 | a failed download of installed models aborts with its error before running models are loaded |
| Picker.RunningErrorIgnored | tui/model_picker.go:111-113 | a failed download of running models gives the same outcome as the same models without the error |
| Picker.SpinnerFailureKeepsLoaderError | tui/model_picker.go:80-82 | a failed spinner returns the zero selector with whatever error the loader had set |
| Picker.EmptySelectionFails | tui/model_picker.go:147-152 | a selector with every slot empty is a pick failure |
| Picker.MenuRule | tui/model_picker.go:156-178 | the menu is shown exactly when the manage tab was chosen without an approved action, and offers the approved actions; its failure aborts and its choice becomes the manage action |
| Picker.FinishApprovesManage | tui/model_picker.go:155-180 | if the menu picks among the options it offers, a manage selection always comes back with an action among the selector's approved actions |
| Picker.ResolveApprovesManage | tui/model_picker.go:17-181 | with a selector program that keeps its approved actions and a menu that picks among its options, the whole call never returns a manage selection whose action was not approved |
| Picker.ProgramStartsFresh | tui/model_picker.go:128-135 | the selector starts from the fetched lists and the configuration, with nothing selected |
| Progress.StatusLabel | internal/tui/tui.go:113-127 | every raw status gets a non-empty label |
| Progress.DownloadingRoundTrip | internal/tui/tui.go:126 | the downloading label of a token reads back as the token |
| Progress.LabelRoundTrip | internal/tui/tui.go:113-127 | `RawStatus` inverts `StatusLabel` on every token |
| Progress.LabelInjective | internal/tui/tui.go:113-127 | distinct tokens get distinct labels |
| Progress.KeysQuitOrIgnored | internal/tui/tui.go:84-91 | quit keys set the user-quit error, blank the view and quit; other keys change nothing |
| Progress.ErrorQuits | internal/tui/tui.go:100-102 | an error message becomes the error, blanks the view and quits |
| Progress.ResizeBar | internal/tui/tui.go:93-98 | the bar width is the window width less 8, capped at 80; nothing else changes |
| Progress.ResponseEffects | internal/tui/tui.go:104-138 | after a response the raw token is the response's, downloading means `total != 0`, the percentage is set only then, and a new token gets a new label and spinner; the old label is printed unless empty, and `success` schedules pause-then-quit |
| Progress.SuccessBlanksView | internal/tui/tui.go:162-164 | after `success` the view is blank |
| Progress.FeedPrints | internal/tui/tui.go:107-112 | over a stream, the finished lines are the current label and then the label of every status change but the last |
| Progress.ResponsePrints | internal/tui/tui.go:107-112 | one response prints the current label exactly when the token changes and a label exists |
| Progress.FreshFeedPrints | internal/tui/tui.go:107-112 | from a fresh renderer, the finished lines are the labels of every status change but the last |
| Progress.InstallModel.constructor | internal/install/install.go:205-208 | a new renderer is in the initial state |
| Progress.InstallModel.Update | internal/tui/tui.go:82-154 | new fields and effects equal `Step` of the old fields |
| Progress.InstallModel.Receive | internal/tui/tui.go:104-138 | the response branch agrees with `OnResponse` |
| Install.DeleteModel | internal/install/install.go:48-55 | success exactly on 200; 404 is "model not found"; transport errors are wrapped |
| Install.UnexpectedStatusReported | internal/install/install.go:51-53 | any other status reads back from the error message |
| Install.UnexpectedStatusInjective | internal/install/install.go:51-53 | distinct unexpected statuses give distinct errors |
| Install.SplitInstalledName | internal/install/install.go:190-198 | a name with exactly one colon splits into colon-free base and tag that rejoin to it; any other name is kept whole with tag `?` |
| Install.SplitInstalledNameRoundTrip | internal/install/install.go:190-198 | `base:tag` with colon-free parts splits back into `(base, tag)` |
| Install.UntaggedName | internal/install/install.go:195-198 | a name without a colon gets tag `?` |
| Install.ForwardPull | internal/install/install.go:235-248 | the pull loop sends what `Forwarded` describes |
| Install.ForwardedShape | internal/install/install.go:235-248 | responses are forwarded in body order up to and including the first `success`; the loop quits the renderer itself exactly when no `success` was sent, and then it stopped only at the end of the body or at a value that failed to decode |
| Install.ForwardedKeepsErr | internal/install/install.go:235-248 | forwarded responses never set the renderer's error |
| Install.AsWrittenLosesFailure | internal/install/install.go:237-241 | as written, a pull that fails before `success` leaves the renderer without error |
| Install.ReportingExtendsForwarded | internal/install/install.go:235-248 | the corrected loop sends the same responses and adds only the error at the end of a failed pull |
| Install.ReportingFlagsFailure | internal/tui/tui.go:100-102 | with the correction, the renderer ends with an error exactly when the pull did not reach `success` |
| Install.Run | internal/install/install.go:103-262 | every early failure with its error and no daemon request; install pulls `name:tag`; update pulls the installed name; delete deletes it; the results carry the split base and tag |
| Install.AsWrittenUpdateRun | internal/install/install.go:235-262 | as written, an update whose renderer saw only the pull loop's messages pulls the model and returns no error, whatever the body held |
| Install.ReportingUpdateRun | internal/install/install.go:235-262 | with the corrected loop, the same update returns an error exactly when no `success` was forwarded |
| Manager.Issued | manager/manager.go:49-52 | a request is issued exactly when the client could be created |
| Manager.ClientCall | manager/manager.go:48-66 | success exactly when the call succeeds; client and call failures carry their prefixes |
| Manager.ChooseTarget | manager/manager.go:188-258 | the tag flow agrees with `InstallTarget` |
| Manager.RunningOperation | manager/manager.go:318-364 | on the running tab: the form error, or a keep-forever/unload generate request on a confirmed `load`/`free`, otherwise nothing |
| Manager.InstalledOperation | manager/manager.go:302-317 | on the installed tab: update pulls, delete deletes, chat does nothing |
| Manager.Run | manager/manager.go:162-371 | a pick failure aborts; each tab issues at most the one request its branch names and returns the selector's actions, the target and the error |
| Manager.ConfirmedInstallTarget | manager/manager.go:205-258 | an install gets a target exactly when tags loaded, the list is non-empty and the user confirmed; the target is `name:tag` |
| Manager.InstallTargetSplitsBack | manager/manager.go:258 | the installed name an install produces splits back into the chosen name and tag |
| Tags.GetAvailableTags | manager/manager.go:136-160 | a failed download is passed through; otherwise one item per matching line, in line order |
| Tags.PatternHasHref | manager/manager.go:151-152 | a matching line always has a piece after `href="`, so the index `[1]` is safe |
| Tags.TagsOfLength | manager/manager.go:148-157 | exactly one item per matching line |
| Tags.TagsOfAppend | manager/manager.go:148-157 | items keep line order |
| Tags.TagLineYieldsTag | manager/manager.go:151-155 | a line linking to `/library/<name>:<tag>` after plain text yields exactly `<tag>` |
| LegacySelector.SelectedItem | internal/tui/manager.go:215 | an item is highlighted exactly when the cursor is inside the items |
| LegacySelector.StepKeepsTabs | internal/tui/manager.go:196-240 | no message changes the tabs or moves the active tab out of range |
| LegacySelector.TabKeysClamp | internal/tui/manager.go:207-212 | tab keys clamp to the first and last tab and do not quit |
| LegacySelector.QuitKeys | internal/tui/manager.go:204-206 | exactly `ctrl+c` and `q` quit, unchanged; `esc` does not |
| LegacySelector.EnterCommitsOnInstallOnly | internal/tui/manager.go:213-217 | `enter` commits and quits only on the install tab, panicking when nothing is highlighted |
| LegacySelector.FilteringSkipsKeys | internal/tui/manager.go:199-203 | while the install list filters on its tab, every key goes to the list only |
| LegacySelector.ListOnlyOnInstall | internal/tui/manager.go:236-238 | off the install tab the list gets no message |
| LegacySelector.ResizeLayout | internal/tui/manager.go:219-231 | the info pane shows exactly above width 90, and the list then takes three fifths of the width |
| LegacySelector.ModelSelector.Update | internal/tui/manager.go:196-240 | the command and (unless it panicked) the new fields equal `Step` of the old fields |
| Whitespace.SkipRegexSpaces | internal/tui/manager.go:71-73 | drops exactly the leading run of `\s` characters |
| Whitespace.CollapseIsScan | internal/tui/manager.go:69-75 | the run replacement equals a character-at-a-time reading |
| Whitespace.CollapseKeepsVisible | internal/tui/manager.go:69-75 | collapsing keeps every other character, in order |
| Whitespace.CollapseIsCollapsed | internal/tui/manager.go:69-75 | the result has no adjacent `\s` characters, and each one is a space |
| Whitespace.CollapseFixes | internal/tui/manager.go:69-75 | an already collapsed string is unchanged |
| Whitespace.CollapseIdempotent | internal/tui/manager.go:69-75 | collapsing twice is collapsing once |
| Whitespace.TrimSpace | tui/get_models.go:28 | the result is a slice of the input with only whitespace cut before and after it, and neither of its ends is whitespace |
| Whitespace.LeftEdge | tui/get_models.go:28 | the first non-whitespace index from `i`, with only whitespace before it |
| Whitespace.RightEdge | tui/get_models.go:28 | the end of the last non-whitespace character, with only whitespace after it |
| Whitespace.TrimSpaceVisible | tui/get_models.go:28 | trimming removes only whitespace |
| Whitespace.TrimKeepsCollapsed | tui/get_models.go:25-28 | trimming a collapsed string keeps it collapsed |
| Whitespace.TrimSpaceKeepsTrimmed | tui/get_models.go:28 | an already trimmed string is unchanged |
| Whitespace.CollapseKeepsEnds | internal/tui/get_models.go:24-28 | collapsing a trimmed string leaves no whitespace at its ends |
| Whitespace.RemoveWhitespace | tui/get_models.go:23-29 | the result is the input with each whitespace run replaced by one space, then trimmed; it is trimmed and collapsed and keeps every other character, in order |
| Whitespace.RemoveWhitespaceTrimFirst | internal/tui/get_models.go:23-30 | the result is the trimmed input with each interior whitespace run replaced by one space; it is trimmed and collapsed and keeps every other character, in order |
| Whitespace.RemoveWhitespaceIdempotent | tui/get_models.go:23-29 | normalising twice is normalising once |
| Whitespace.RemoveWhitespaceTrimFirstIdempotent | internal/tui/get_models.go:23-30 | normalising twice is normalising once |
| HtmlSearch.Matches | internal/tui/get_models.go:65-73 | every listed index is a matching child |
| HtmlSearch.MatchesExact | internal/tui/get_models.go:65-73 | exactly the matching children, strictly increasing |
| HtmlSearch.MatchesLast | internal/tui/get_models.go:55-62 | a match with none after it is the last of `Matches` |
| HtmlSearch.FindFirstNodeByTag | internal/tui/get_models.go:33-40 | the first matching child, or nil when there is none |
| HtmlSearch.FindNthNodeByTag | internal/tui/get_models.go:42-53 | the `n`-th match, or nil when `n` is negative or there are at most `n` matches |
| HtmlSearch.FindLastNodeByTag | internal/tui/get_models.go:55-62 | the last matching child, or nil |
| HtmlSearch.FindAllNodesByTag | internal/tui/get_models.go:65-73 | all matching children, in sibling order |
| HtmlSearch.SearchesAgree | internal/tui/get_models.go:33-73 | first is the 0-th, last closes the list of all, and each is nil exactly when none match |
| HtmlSearch.GetExtraInfo | internal/tui/get_models.go:75-89 | one badge per span child, in order, holding that span's first text padded by spaces |
| SpanStats.KeptUsable | internal/tui/manager.go:118-121 | the kept texts are never the skipped ones |
| SpanStats.KeptInSpansUsable | internal/tui/manager.go:116-121 | the same, over all span children |
| SpanStats.FillAppend | internal/tui/manager.go:112-135 | absorbing two runs is absorbing their concatenation |
| SpanStats.FillFromEmpty | internal/tui/manager.go:123-132 | the first three usable texts become pulls, tags and updated; `found` is set exactly when a fourth exists |
| SpanStats.ParagraphStats | internal/tui/manager.go:112-135 | the same for one paragraph's spans |
| SpanStats.ScanSpan | internal/tui/manager.go:117-133 | the inner loop agrees with `Fill` |
| SpanStats.ScanSpans | internal/tui/manager.go:112-135 | the span loop agrees with `Fill` |
| InstalledModels.ByteCountSI | internal/tui/get_installed_models.go:12-24 | below 1000 the exact count; otherwise a power of 1000 that leaves a quotient in [1, 1000), with its prefix from "kMGTPE", always in range |
| InstalledModels.PrefixInRange | internal/tui/get_installed_models.go:22-23 | an int64 count never needs a prefix past `E` |
| InstalledModels.ScaleStep | internal/tui/get_installed_models.go:17-21 | each round keeps the divisor a power of 1000 no larger than the count |
| InstalledModels.FilterValue | internal/tui/get_installed_models.go:76 | the list filters on the text it shows as the heading |
| Report.PrintActionResult | utils/utils.go:36-67 | an error is printed and returned; success returns nil and prints nothing exactly on the monitor tab; the success line names the model |
| Report.SuccessLabel | utils/utils.go:49-54 | the success line names the manage action on the manage tab and the tab otherwise |
| Report.LabelsDistinguishOutcomes | utils/utils.go:49-64 | distinct manage actions, and install versus manage, give distinct reports |
| GoStrings.IndexFrom | manager/manager.go:151 | the first occurrence at or after `from`, or none |
| GoStrings.JoinSplit | internal/install/install.go:191 | joining the split pieces with the separator gives the input back |
| GoStrings.SplitPiecesFree | internal/install/install.go:191 | no piece holds the separator |
| GoStrings.SplitHasSecond | manager/manager.go:152 | any occurrence yields at least two pieces |
| GoStrings.TrimPrefix | manager/manager.go:154 | the prefix is removed exactly when present |
| GoStrings.DecimalRoundTrip | internal/install/install.go:52 | `%d` text reads back as the number |

## Left out

- Network and daemon I/O are inputs, not calls: the catalog, installed and running downloads, `http.Get`/`Post`, and the `api` client's `Pull`, `Delete` and `Generate`. The model takes each one's outcome as a value.
- The goroutines of manager/manager.go:294,305 and internal/install/install.go:215 are not modelled as threads. The pull stream is a finite sequence of decoded values fed in order. Key presses interleaved with pull responses are not modelled.
- `installModel` in manager/manager.go only prints its failures. Its effect is the pull request `Run` issues, and the renderer's error is an input.
- Library behaviour is abstract:
  - the bubbletea runtime, `tea.Cmd` values and their timing;
  - list filtering and cursor movement (a caller-supplied list step);
  - huh forms and spinners (the user's answers);
  - the random spinner choice (only the number of spinners started is counted).
- The selector and its consumers rely on the huh select keeping the choice within its options. The model takes the menu's answer as any action, and Picker.FinishApprovesManage and Picker.ResolveApprovesManage state that reliance as a hypothesis.
- HTML parsing and goquery selectors are left out. This includes the traversal of `extractModels` outside its span loop, and all of tui/get_models.go except `removeWhitespace`. The node searches work over an abstract child sequence.
- Floating point is left out:
  - the progress fraction (only its operands are recorded);
  - `ByteCountSI`'s `%.1f` (only the divisor and prefix are modelled);
  - the GPU/CPU percentages of `View`;
  - humanize and time formatting.
- TabRow.TabWidth: `math.Floor` of a float quotient is modelled as exact integer division, which matches it only for widths far below 2^53.
- Rendering and side effects are left out: lipgloss styling, `View` strings beyond the tab widths, truncation and help keys, `PlaceOverlay`, the global `Keys` mutation, `ClearTerminal`, `PrintError` and printing.
- main.go, src/ollamanager/ollamanager.go, tui/keys.go, internal/tui/model-picker.go, internal/utils/utils.go, tui/get_installed_models.go and tui/get_running_models.go are not part of this model. They are plumbing, declarations or API calls.
- Install.Run: the `tui.ModelPicker` it calls is the plumbing of internal/tui/model-picker.go. Its result is an input.
- Install.Run: the renderer's `Err` is an input. It is linked to the pull loop only through `Render` in Install.AsWrittenUpdateRun and Install.ReportingUpdateRun, which assume no key press ends the renderer first.
- Install.ForwardPull: a failed marshal or POST (internal/install/install.go:217-229) returns from the pull goroutine without sending anything and without quitting the renderer, so the program keeps running. The modelled stream begins after a successful POST, so that path is not captured.
- Strings are sequences of characters. Go's byte indexing differs only for non-ASCII text, and all labels and keys are ASCII.
- TabRow.Truncate requires a non-empty label, because Go panics on `t[:1]` of an empty label that is too long.
- HtmlSearch.GetExtraInfo requires every span to have a first child, because Go dereferences nil otherwise.

## Findings

| source | as written | input that shows it | evidently intended | confidence | as-written member | corrected member |
|---|---|---|---|---|---|---|
| internal/install/install.go:235-248 | a decode error or the end of the body before `success` quits the renderer without sending it an error, so `Run` returns a nil error for a failed pull | the body stream `[DecodeFailed("EOF")]` | report the failure through `progressErrMsg` (internal/tui/tui.go:100-102), so the renderer ends with an error | medium; not executed | Install.AsWrittenUpdateRun | Install.ReportingUpdateRun |
