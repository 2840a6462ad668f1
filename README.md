# pyautogit repository screen and settings screen, in Dafny

This project models the two controllers behind pyautogit's terminal dashboard:

- `RepoControlManager` drives the repository screen. It has four list panels: branches, remotes, changed files and recent commits. Each panel is a sequence of lines with a selected index. It also has an info text block, the commit-message and new-branch text boxes, a scratch slot (`utility_var`) that carries a remote name from one prompt to the next, and a push-result slot (`message`, `status`). Its operations run git commands, fill the panels from the output, and show popups.
- `SettingsScreen` drives the settings screen. It has an "Internal"/"External" editor switch and the external editor command. It has the logger's on/off flag and file path. It keeps a settings log, newest entry first. It shows two status labels that summarise these settings.

Every git command is a `Command` value appended to an `issued` log. Its `(out, err)` result is a parameter of the operation. Every popup is a `Popup` value appended to a `popups` log. A refresh takes the four query results it needs as one `RefreshOutputs` record.

Files:

- `text.dfy` (module `Text`): Python's `s[n:]`, `startswith` and `splitlines`, with the round-trip between splitting and joining lines.
- `widgets.dfy` (module `Widgets`): the list panel, the text block and the popups.
- `repo_control.dfy` (module `RepoControl`): the value `Screen`, with one function per operation, and the class `RepoControlManager`. Each method of the class updates its fields in place and is proved to end in the state that the `Screen` function of the same name gives.
- `repo_control_properties.dfy`: lemmas about those functions.
- `settings.dfy` (module `Settings`): the value `Config`, with one function per operation, and the class `SettingsScreen`, built the same way.
- `settings_properties.dfy`: lemmas about those functions.

The widget library's list panel is not part of this model. The model assumes its usual behaviour: `clear()` empties the panel and puts the cursor at 0, `add_item_list` appends, and `get()` returns nothing for an empty panel. The text block's `get()` is taken to return exactly the text last passed to `set_text`, which is how the settings log is rebuilt at pyautogit/settings_screen.py:82.

Three behaviours of the code that are easy to miss:

- A branch list with no entry marked `*` leaves the branch cursor at the list's length, one past the last entry (`RefreshCanLeaveBranchCursorPastEnd`).
- `add_revert_file` refreshes only when `err >= 0`; a negative status shows an error and skips the refresh.
- A refresh does not clamp an index that is out of range. It restores the remotes and files indices only when the new list is strictly longer than the saved index; otherwise it keeps the index the refreshed panel has.

## Model

| member | source | states |
|---|---|---|
| `Text.Drop` | pyautogit/repo_control_screen.py:120 | `s[n:]` is empty when s has at most n characters, and otherwise holds s's characters from position n on |
| `Text.SplitLines` | pyautogit/repo_control_screen.py:76 | command output splits into lines, and only the empty output has no lines |
| `Text.SplitLinesHaveNoBreaks` | pyautogit/repo_control_screen.py:76 | no line of the split contains a line break |
| `Text.SplitLinesCons` | pyautogit/repo_control_screen.py:76 | a line without a break, followed by a break, comes out as the first line, followed by the lines of the rest |
| `Text.SplitJoin` | pyautogit/repo_control_screen.py:76 | splitting the lines back out of joined text gives exactly those lines, in order |
| `Text.JoinSplit` | pyautogit/repo_control_screen.py:76 | joining the split lines gives back the text, plus a final line break when the last line had none |
| `RepoControl.CurrentBranchIndex` | pyautogit/repo_control_screen.py:95-100 | the branch index is at most the list length, no entry before it starts with `*`, and the entry at it does when it is in range |
| `RepoControl.AddRevertCommand` | pyautogit/repo_control_screen.py:189-192 | the command stages exactly when the entry's first character is a space or `?` and resets otherwise; its path is the entry with the first three characters removed, empty for an entry of three characters or fewer |
| `RepoControl.RepoControlManager.constructor` | pyautogit/repo_control_screen.py:17-22 | takes over the widgets; push message empty, status 0, scratch slot empty |
| `RepoControl.RepoControlManager.ProcessMenuSelection` | pyautogit/repo_control_screen.py:25-29 | "Add Remote" asks for the remote name; any other choice shows the not-supported warning |
| `RepoControl.RepoControlManager.ShowMenu` | pyautogit/repo_control_screen.py:32-33 | shows the full-control menu with the four choices the manager sets at line 22 |
| `RepoControl.RepoControlManager.RefreshGitStatus` | pyautogit/repo_control_screen.py:35-48 | saves the remotes and files indices, runs the branch, remote, status and commit queries, then restores each saved index only where the new list is longer than it |
| `RepoControl.RepoControlManager.AddRemote` | pyautogit/repo_control_screen.py:51-59 | issues add-remote with the name from the scratch slot and empties the slot; a negative status shows an error, otherwise clears the remotes panel and refreshes |
| `RepoControl.RepoControlManager.AskNewRemoteUrl` | pyautogit/repo_control_screen.py:61-63 | stores the name in the scratch slot and prompts for the URL |
| `RepoControl.RepoControlManager.AskNewRemoteName` | pyautogit/repo_control_screen.py:65-66 | prompts for the remote name, whose answer goes to the URL prompt |
| `RepoControl.RepoControlManager.GetRepoStatusShort` | pyautogit/repo_control_screen.py:70-76 | a negative status shows an error and keeps the files panel; otherwise the panel holds the output's lines |
| `RepoControl.RepoControlManager.GetRepoRemotes` | pyautogit/repo_control_screen.py:79-85 | the same for the remotes panel |
| `RepoControl.RepoControlManager.GetRepoBranches` | pyautogit/repo_control_screen.py:88-100 | the same for the branch panel, and its cursor is then moved to the count of entries before the first one starting with `*` |
| `RepoControl.RepoControlManager.ShowRemoteInfo` | pyautogit/repo_control_screen.py:103-113 | does nothing without a selected branch; otherwise queries the selected remote and shows its info or an error |
| `RepoControl.RepoControlManager.GetRecentCommits` | pyautogit/repo_control_screen.py:116-126 | does nothing without a selected branch; otherwise fills the commits panel for the branch name without its marker, or shows an error |
| `RepoControl.RepoControlManager.ShowLog` | pyautogit/repo_control_screen.py:130-139 | does nothing without a selected branch; otherwise shows that branch's log in the info block, or an error naming the branch |
| `RepoControl.RepoControlManager.OpenGitDiff` | pyautogit/repo_control_screen.py:142-148 | shows the repository diff in the info block, or an error |
| `RepoControl.RepoControlManager.OpenGitDiffFile` | pyautogit/repo_control_screen.py:151-158 | shows the selected file's diff under a title naming the file, or an error |
| `RepoControl.RepoControlManager.OpenEditor` | pyautogit/repo_control_screen.py:161-172 | without an editor shows an error and issues nothing; otherwise opens the editor on the working directory and reports failure or success |
| `RepoControl.RepoControlManager.OpenEditorFile` | pyautogit/repo_control_screen.py:175-177 | opens the editor for the selected file, which still opens the working directory |
| `RepoControl.RepoControlManager.AddAllChanges` | pyautogit/repo_control_screen.py:180-185 | stages everything; a nonzero status shows an error, a zero status refreshes |
| `RepoControl.RepoControlManager.AddRevertFile` | pyautogit/repo_control_screen.py:187-196 | stages or resets the selected entry's path; a negative status shows an error, any other refreshes |
| `RepoControl.RepoControlManager.PullRepoBranchCred` | pyautogit/repo_control_screen.py:198-202 | without credentials shows only the credentials prompt; with them pulls |
| `RepoControl.RepoControlManager.PullRepoBranch` | pyautogit/repo_control_screen.py:205-215 | pulls the selected branch from the selected remote; success shows the output and a confirmation, failure an error; refreshes in both cases |
| `RepoControl.RepoControlManager.Commit` | pyautogit/repo_control_screen.py:218-227 | commits the message box's text; failure shows an error, success a confirmation, a refresh and the log; the box is then cleared |
| `RepoControl.RepoControlManager.PushRepoBranchCred` | pyautogit/repo_control_screen.py:231-235 | without credentials shows only the credentials prompt; with them pushes, then shows the push result |
| `RepoControl.RepoControlManager.PushRepoBranch` | pyautogit/repo_control_screen.py:238-244 | pushes, keeps the output and status in the result slot, refreshes, and shows the output in the info block |
| `RepoControl.RepoControlManager.ShowPushResult` | pyautogit/repo_control_screen.py:247-253 | an error popup for a nonzero status and a success popup otherwise, both with the output; then status 0 and an empty message |
| `RepoControl.RepoControlManager.CreateNewBranch` | pyautogit/repo_control_screen.py:256-267 | an empty name shows a validation error only; otherwise creates the branch, reports a failure, clears the box and refreshes |
| `RepoControl.RepoControlManager.CheckoutBranch` | pyautogit/repo_control_screen.py:269-278 | does nothing without a selected branch; otherwise checks out the name without its marker, reports, and refreshes |
| `RepoControlProperties.QueryFailureKeepsPanel` | pyautogit/repo_control_screen.py:70-126 | a query with a negative status leaves its panel unchanged and adds exactly one error popup naming the query |
| `RepoControlProperties.QuerySuccessReplacesItems` | pyautogit/repo_control_screen.py:70-126 | a query with a non-negative status makes the panel's items exactly the output's lines, in order, with no popup |
| `RepoControlProperties.RefreshSelectsCurrentBranch` | pyautogit/repo_control_screen.py:88-100 | after a refresh whose branch query succeeds, the branch cursor sits on the first entry starting with `*`, and all entries before it have none |
| `RepoControlProperties.NoCurrentBranchSelectsPastEnd` | pyautogit/repo_control_screen.py:95-100 | when no entry starts with `*`, the branch index equals the list length and nothing is selected |
| `RepoControlProperties.RefreshBranchCursorValid` | pyautogit/repo_control_screen.py:93-100 | after a successful branch query the cursor is on an entry, or at 0 on an empty list, exactly when the output is empty or has an entry starting with `*` |
| `RepoControlProperties.MarkedByFirstChar` | pyautogit/repo_control_screen.py:97 | an entry counts as the current branch exactly when its first character is `*` |
| `RepoControlProperties.TwoBranchOutput` | pyautogit/repo_control_screen.py:94 | two break-free lines, the second non-empty, joined by one break split into exactly those two lines; a final break adds no empty line |
| `RepoControlProperties.CurrentBranchIndexTwo` | pyautogit/repo_control_screen.py:95-100 | over two entries the cursor goes to the first one marked `*`, or to 2 when neither is |
| `RepoControlProperties.FirstBranchCurrent` | pyautogit/repo_control_screen.py:94-100 | the output "* main\n  dev" selects index 0 |
| `RepoControlProperties.SecondBranchCurrent` | pyautogit/repo_control_screen.py:94-100 | the output "  main\n* dev" selects index 1 |
| `RepoControlProperties.NoBranchCurrent` | pyautogit/repo_control_screen.py:94-100 | the output "  main\n  dev" selects index 2, one past the last entry |
| `RepoControlProperties.RefreshIssuesQueries` | pyautogit/repo_control_screen.py:35-48 | a refresh issues the branch, remote and status queries in order, then the commits query only when a branch is selected; info, text boxes and slots are unchanged |
| `RepoControlProperties.RefreshRestoresSelection` | pyautogit/repo_control_screen.py:37-48 | the remotes and files cursors return to their saved index when the new list is longer than it, are 0 otherwise after a successful query, and are untouched after a failed one |
| `RepoControlProperties.RefreshKeepsCursorsValid` | pyautogit/repo_control_screen.py:37-48 | a refresh keeps the remotes, files and commits cursors on an item, or at 0 on an empty list |
| `RepoControlProperties.RefreshCanLeaveBranchCursorPastEnd` | pyautogit/repo_control_screen.py:95-100 | the branch panel has no such guarantee: the output "  main" leaves its cursor at 1, past the end |
| `RepoControlProperties.RefreshExtends` | pyautogit/repo_control_screen.py:35-48 | a refresh only appends to the popups and the commands issued |
| `RepoControlProperties.ShowLogExtends` | pyautogit/repo_control_screen.py:130-139 | showing the log only appends to the popups and the commands issued |
| `RepoControlProperties.ShowLogContract` | pyautogit/repo_control_screen.py:130-139 | without a selected branch nothing changes; otherwise the log of the marker-stripped name is asked for, and the result is either one error popup naming the branch or the output under "Git log", with nothing else changed |
| `RepoControlProperties.AddRemoteChain` | pyautogit/repo_control_screen.py:51-66 | the name entered at the first prompt reaches the add-remote command and the slot is empty afterwards; a failure keeps the remotes panel, a success leaves it refreshed with its cursor at 0, or empty if the remotes query fails |
| `RepoControlProperties.AddRemotePrompts` | pyautogit/repo_control_screen.py:25-66 | choosing "Add Remote" shows the name prompt and then the URL prompt, each handing its answer to the next step |
| `RepoControlProperties.AddRevertStagesOrResets` | pyautogit/repo_control_screen.py:187-196 | stages or resets by the entry's first character; refreshes if and only if the status is not negative, and otherwise adds only an error popup |
| `RepoControlProperties.AddRevertExamples` | pyautogit/repo_control_screen.py:189-192 | " M file.txt" and "?? new.txt" are staged, "M  file.txt" is reset |
| `RepoControlProperties.AddAllRefreshesOnSuccessOnly` | pyautogit/repo_control_screen.py:180-185 | a nonzero status adds only the command and an error popup; a zero status is followed by a refresh |
| `RepoControlProperties.CommitAlwaysClearsMessage` | pyautogit/repo_control_screen.py:218-227 | the commit message box is empty after every commit, whatever the status |
| `RepoControlProperties.CommitFailureOnlyReports` | pyautogit/repo_control_screen.py:218-222 | a failed commit adds the command and an error popup and changes nothing else but the box |
| `RepoControlProperties.CommitSuccessRefreshes` | pyautogit/repo_control_screen.py:218-226 | a successful commit shows the confirmation with the message, then refreshes |
| `RepoControlProperties.CommitShowsLog` | pyautogit/repo_control_screen.py:223-226 | after a successful commit whose log query succeeds, the info block shows the log of the selected branch |
| `RepoControlProperties.CreateNewBranchContract` | pyautogit/repo_control_screen.py:256-267 | an empty name adds one error popup and nothing else; a non-empty name is issued as it is, the box is cleared and a refresh follows whatever the status |
| `RepoControlProperties.CheckoutBranchContract` | pyautogit/repo_control_screen.py:269-278 | without a selected branch nothing happens; otherwise the name without its marker is checked out, the popup follows the status, and a refresh always follows |
| `RepoControlProperties.PullAlwaysRefreshes` | pyautogit/repo_control_screen.py:205-215 | the pull is issued once and is always followed by a refresh; only a zero status puts its output in the info block |
| `RepoControlProperties.ShowPushResultContract` | pyautogit/repo_control_screen.py:247-253 | the popup is an error exactly when the status is nonzero and carries the message; afterwards status 0 and message empty |
| `RepoControlProperties.PushRunsOnceAndReports` | pyautogit/repo_control_screen.py:231-253 | with credentials the push is issued exactly once, a refresh follows, the info block and the last popup carry its output, and the slot is reset |
| `RepoControlProperties.CredentialGate` | pyautogit/repo_control_screen.py:198-235 | without credentials a push or pull shows exactly one credentials prompt and issues no command |
| `RepoControlProperties.RemoteInfoFailureKeepsInfo` | pyautogit/repo_control_screen.py:103-113 | a failed remote-info query leaves the info block as it was and adds one error popup |
| `RepoControlProperties.OpenEditorIgnoresFile` | pyautogit/repo_control_screen.py:161-172 | the file chosen makes no difference: the editor is opened on the working directory, and nothing is issued without an editor |
| `RepoControlProperties.MenuSelection` | pyautogit/repo_control_screen.py:25-29 | only "Add Remote" leads to a prompt; every other choice shows the warning |
| `Settings.SettingsScreen.constructor` | pyautogit/settings_screen.py:50-65 | the log starts empty, the debug label reads "OFF - " and the path, and the editor label shows type and command |
| `Settings.SettingsScreen.AddToSettingsLog` | pyautogit/settings_screen.py:73-82 | the log becomes the entry, a line break, then the old log |
| `Settings.SettingsScreen.AskLogFilePath` | pyautogit/settings_screen.py:85-89 | prompts for a path whose answer goes to the log-path update |
| `Settings.SettingsScreen.ToggleEditorType` | pyautogit/settings_screen.py:108-117 | switches the editor type, logs the swap and refreshes the labels |
| `Settings.SettingsScreen.ToggleLogging` | pyautogit/settings_screen.py:120-126 | flips logging, logs the toggle and refreshes the labels |
| `Settings.SettingsScreen.AskDefaultEditor` | pyautogit/settings_screen.py:129-133 | prompts for an editor command whose answer goes to the editor update |
| `Settings.SettingsScreen.UpdateDefaultEditor` | pyautogit/settings_screen.py:136-149 | stores the command, switches an "Internal" type to "External", logs the update and refreshes the labels |
| `Settings.SettingsScreen.UpdateLogFilePath` | pyautogit/settings_screen.py:152-166 | a writable directory sets the path, logs it and refreshes; otherwise only a permission error popup |
| `Settings.SettingsScreen.RefreshStatus` | pyautogit/settings_screen.py:169-179 | the debug label is "ON" or "OFF", " - " and the path; the editor label is the type, " - " and the command |
| `SettingsProperties.ToggleTwiceRestores` | pyautogit/settings_screen.py:112-115 | "Internal" becomes "External" and anything else "Internal"; switching twice restores "Internal" or "External" |
| `SettingsProperties.AddToLogKeepsOldLog` | pyautogit/settings_screen.py:82 | the new log starts with the entry and a line break, and the whole old log survives as its suffix |
| `SettingsProperties.AddToLogPrependsLine` | pyautogit/settings_screen.py:82 | read as lines, an entry without a break becomes the first line and all older lines follow unchanged |
| `SettingsProperties.AddEntriesReadNewestFirst` | pyautogit/settings_screen.py:73-82 | entries added one after another read back in reverse order, newest first, above the older lines |
| `SettingsProperties.UpdateDefaultEditorContract` | pyautogit/settings_screen.py:145-149 | the command is stored; the type becomes "External" if it was "Internal" and is kept otherwise; the log gains the swap entry and then the update entry on top |
| `SettingsProperties.UpdateDefaultEditorLogLines` | pyautogit/settings_screen.py:146-148 | when the type is swapped, the first two log lines are the update entry and then "Swapped editor type" |
| `SettingsProperties.UpdateLogFilePathContract` | pyautogit/settings_screen.py:161-166 | a writable directory sets the path and prepends its entry; otherwise one error popup and nothing else changes |
| `SettingsProperties.ToggleLoggingContract` | pyautogit/settings_screen.py:124-126 | the flag flips, the path is kept, and "Toggled logging" is always prepended to the log |
| `SettingsProperties.LabelsFollowSettings` | pyautogit/settings_screen.py:173-179 | after a refresh, and after each operation that changes a setting, both labels show the current settings |
| `SettingsProperties.PromptsFeedUpdates` | pyautogit/settings_screen.py:85-133 | the log-path and editor prompts hand their answers to the matching update |

## Left out

- Widget construction, layout, colours, key bindings and the settings logo (`get_settings_ascii_art`) are pure UI. Popups are recorded as values and are never rendered.
- After building the widgets, `initialize_screen_elements` tries at pyautogit/settings_screen.py:69 to build a log path from `datetime.datetime.today().split(' ')`. A `datetime` has no `.split`, so the line raises before `update_log_file_path` runs. The settings constructor models only the labels and the log built before it.
- The git subprocesses are not modelled. Each result is an `(out, err)` parameter. The credentials object that push and pull pass along is not part of the commands.
- The background thread and loading popup of the push (`perform_long_operation`, `stop_loading_popup`) are left out. The push is a plain sequential call followed by `ShowPushResult`.
- The credential check and prompt live in the top-level manager, which is not part of this model. The check is a boolean input. The prompt is one `CredentialsPopup`, whose later answer re-runs the operation.
- `os.getcwd` and the directory test of `update_log_file_path` are inputs. The `os.path.join` at pyautogit/repo_control_screen.py:167 computes a path that is then dropped, so the model opens the working directory whatever file is chosen.
- The logger's internals are left out. Toggling flips a flag, and setting a path stores it.
- `lose_focus` at pyautogit/repo_control_screen.py:265 changes only keyboard focus and is not modelled.
- Line 264 calls `show_error_popup` on the top-level manager rather than on the root window. That manager is not part of this model, so the model records an error popup like the others.
- `splitlines` is modelled on '\n' only. Python also breaks lines at '\r', '\x0b' and other separators.
- When the list cursor is past the end of a non-empty list, the widget's `get()` would raise `IndexError`; the model treats that as no selection. This happens after a branch list with no entry marked `*`. The source's refresh then stops at the `get()` of `get_recent_commits` (pyautogit/repo_control_screen.py:118): the recent-commits query and the restoring of the remotes and files cursors at lines 45-48 do not run, and the operation that called the refresh stops there too, so `commit` never clears its box at line 227. The model's refresh runs to the end instead. `RefreshBranchCursorValid` states when this cannot happen: the branch output is empty or has an entry starting with `*`. `RefreshRestoresSelection`, `RefreshKeepsCursorsValid`, `CommitAlwaysClearsMessage`, `CommitShowsLog`, `PushRunsOnceAndReports`, and every other lemma that goes through a refresh, describe the source only in that case.
- The model requires a selected entry for operations that slice or call methods on `get()`: diff and editor for a file, add/revert, pull and push. With an empty panel, Python raises `TypeError` or `AttributeError` there.
