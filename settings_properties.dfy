/**
 * What the settings screen promises, stated over the `Config` functions that
 * the `SettingsScreen` methods are proved to carry out.
 */
module SettingsProperties {
  import opened Text
  import opened Widgets
  import opened Settings

  /** The switch maps "Internal" to "External" and everything else to "Internal"; twice restores either of the two. */
  lemma ToggleTwiceRestores(c: Config)
    ensures c.editorType == Internal ==> c.ToggleEditorType().editorType == External
    ensures c.editorType != Internal ==> c.ToggleEditorType().editorType == Internal
    ensures c.editorType == Internal || c.editorType == External ==>
      c.ToggleEditorType().ToggleEditorType().editorType == c.editorType
  {
  }

  /**
   * A new log entry goes on top: the new text is the entry, a line break,
   * and the whole old log, which survives as its suffix.
   */
  lemma AddToLogKeepsOldLog(c: Config, text: string)
    ensures var r := c.AddToSettingsLog(text);
      |r.log| == |text| + 1 + |c.log|
      && r.log[..|text|] == text && r.log[|text|] == '\n'
      && r.log[|text| + 1..] == c.log
  {
  }

  /** Read as lines, the log gains its new entry as the first line and keeps all older lines after it. */
  lemma AddToLogPrependsLine(c: Config, text: string)
    requires '\n' !in text
    ensures SplitLines(c.AddToSettingsLog(text).log) == [text] + SplitLines(c.log)
  {
    SplitLinesCons(text, c.log);
  }

  /** The log after adding each of the entries in turn. */
  function AddEntries(c: Config, entries: seq<string>): Config
    decreases |entries|
  {
    if |entries| == 0 then c else AddEntries(c.AddToSettingsLog(entries[0]), entries[1..])
  }

  function Reversed(xs: seq<string>): seq<string>
  {
    if |xs| == 0 then [] else Reversed(xs[1..]) + [xs[0]]
  }

  /** Entries added one after another read back newest first, above the lines that were already there. */
  lemma {:induction false} AddEntriesReadNewestFirst(c: Config, entries: seq<string>)
    requires forall k :: 0 <= k < |entries| ==> '\n' !in entries[k]
    ensures SplitLines(AddEntries(c, entries).log) == Reversed(entries) + SplitLines(c.log)
    decreases |entries|
  {
    if |entries| > 0 {
      AddToLogPrependsLine(c, entries[0]);
      AddEntriesReadNewestFirst(c.AddToSettingsLog(entries[0]), entries[1..]);
    }
  }

  /**
   * Setting the editor command stores it; the type becomes "External" if it
   * was "Internal" and is otherwise kept. When the type is swapped the log
   * gains "Swapped editor type" and then the update entry, which is on top.
   */
  lemma UpdateDefaultEditorContract(c: Config, newEditor: string)
    ensures var r := c.UpdateDefaultEditor(newEditor);
      r.defaultEditor == Some(newEditor)
      && r.editorType == (if c.editorType == Internal then External else c.editorType)
      && (c.editorType == Internal ==> r.log == EditorUpdatedEntry(newEditor) + "\n" + (SwappedEntry + "\n" + c.log))
      && (c.editorType != Internal ==> r.log == EditorUpdatedEntry(newEditor) + "\n" + c.log)
      && r.LabelsCurrent()
      && r.logEnabled == c.logEnabled && r.logPath == c.logPath && r.popups == c.popups
  {
  }

  /** The swap entry, and the update entry for an editor command without a break, are single lines. */
  lemma EditorEntriesAreLines(newEditor: string)
    requires '\n' !in newEditor
    ensures '\n' !in EditorUpdatedEntry(newEditor) && '\n' !in SwappedEntry
  {
    assert '\n' !in "Update default editor to: ";
    NoBreakInConcat("Update default editor to: ", newEditor);
  }

  /** Two lines put in front of a list, one after the other. */
  lemma PrependTwo(first: string, second: string, lines: seq<string>)
    ensures [first] + ([second] + lines) == [first, second] + lines
  {
  }

  /** The swap entry sits directly under the update entry, both as lines. */
  lemma UpdateDefaultEditorLogLines(c: Config, newEditor: string)
    requires c.editorType == Internal && '\n' !in newEditor
    ensures SplitLines(c.UpdateDefaultEditor(newEditor).log)
      == [EditorUpdatedEntry(newEditor), SwappedEntry] + SplitLines(c.log)
  {
    var entry, swapped := EditorUpdatedEntry(newEditor), SwappedEntry + "\n" + c.log;
    UpdateDefaultEditorContract(c, newEditor);
    EditorEntriesAreLines(newEditor);
    SplitLinesCons(entry, swapped);
    SplitLinesCons(SwappedEntry, c.log);
    PrependTwo(entry, SwappedEntry, SplitLines(c.log));
  }

  /**
   * A writable directory makes the path the log file path and logs it; any
   * other path shows one error popup and changes nothing else.
   */
  lemma UpdateLogFilePathContract(c: Config, path: string, dirWritable: bool)
    ensures var r := c.UpdateLogFilePath(path, dirWritable);
      (dirWritable ==> r.logPath == path && r.log == LogPathUpdatedEntry(path) + "\n" + c.log
                       && r.LabelsCurrent() && r.popups == c.popups)
      && (!dirWritable ==> r == c.(popups := c.popups + [ErrorPopup(PermissionErrorTitle,
                                   PermissionErrorText)]))
  {
  }

  /** Toggling logging flips the logger's flag, keeps its path, and always logs the toggle. */
  lemma ToggleLoggingContract(c: Config)
    ensures var r := c.ToggleLogging();
      r.logEnabled == !c.logEnabled && r.logPath == c.logPath
      && r.log == ToggledLoggingEntry + "\n" + c.log
      && r.LabelsCurrent()
      && r.editorType == c.editorType && r.defaultEditor == c.defaultEditor
  {
  }

  /**
   * Refreshing makes both labels show the current settings, and every
   * operation that changes a setting ends with the labels up to date.
   */
  lemma LabelsFollowSettings(c: Config, newEditor: string, path: string)
    ensures c.RefreshStatus().LabelsCurrent()
    ensures c.ToggleEditorType().LabelsCurrent()
    ensures c.ToggleLogging().LabelsCurrent()
    ensures c.UpdateDefaultEditor(newEditor).LabelsCurrent()
    ensures c.UpdateLogFilePath(path, true).LabelsCurrent()
  {
  }

  /** The prompts for a new log path and a new editor hand their answers to the matching update. */
  lemma PromptsFeedUpdates(c: Config)
    ensures c.AskLogFilePath().popups == c.popups + [TextBoxPopup(LogPathPrompt, ThenUpdateLogFilePath)]
    ensures c.AskDefaultEditor().popups
      == c.popups + [TextBoxPopup(EditorPrompt, ThenUpdateDefaultEditor)]
  {
  }
}
