/**
 * The settings screen (`SettingsScreen`): the editor type switch
 * ("Internal"/"External") and the external editor command, the logger's
 * on/off flag and file path, a settings log shown newest entry first, and
 * the two status labels that summarise them.
 *
 * The editor fields belong to the application's top-level manager and the
 * logging fields to the logger; here they are fields of the screen. Whether a
 * log directory exists and is writable is an input.
 */
module Settings {
  import opened Text
  import opened Widgets

  const Internal: string := "Internal"
  const External: string := "External"

  // The settings log's entries and the screen's prompts and error.
  const SwappedEntry: string := "Swapped editor type"
  const ToggledLoggingEntry: string := "Toggled logging"
  const LogPathPrompt: string := "Please enter a new log file path"
  const EditorPrompt: string := "Please enter a command to open an external text editor"
  const PermissionErrorTitle: string := "Permission Error"
  const PermissionErrorText: string := "The log file path either does not exist, or you do not have write permissions!"

  function EditorUpdatedEntry(editor: string): string { "Update default editor to: " + editor }
  function LogPathUpdatedEntry(path: string): string { "Update log file path: " + path }

  /** The editor type after the switch: "External" from "Internal", "Internal" from anything else. */
  function ToggledEditorType(editorType: string): string
  {
    if editorType == Internal then External else Internal
  }

  /** The debug label's text: the logging state, then the log file path. */
  function DebugLabel(logEnabled: bool, logPath: string): string
  {
    (if logEnabled then "ON" else "OFF") + " - " + logPath
  }

  /** The editor label's text: the editor type, then the editor command. */
  function EditorLabel(editorType: string, defaultEditor: Option<string>): string
  {
    editorType + " - " + OptionText(defaultEditor)
  }

  datatype Config = Config(
    editorType: string,
    defaultEditor: Option<string>,
    log: string,
    logEnabled: bool,
    logPath: string,
    debugLabel: string,
    editorLabel: string,
    popups: seq<Popup>)
  {
    /** Both labels show the current settings. */
    predicate LabelsCurrent()
    {
      debugLabel == DebugLabel(logEnabled, logPath) && editorLabel == EditorLabel(editorType, defaultEditor)
    }

    function AddToSettingsLog(text: string): Config
    {
      this.(log := text + "\n" + log)
    }

    function RefreshStatus(): Config
    {
      this.(debugLabel := DebugLabel(logEnabled, logPath),
            editorLabel := EditorLabel(editorType, defaultEditor))
    }

    function ToggleEditorType(): Config
    {
      this.(editorType := ToggledEditorType(editorType)).AddToSettingsLog(SwappedEntry).RefreshStatus()
    }

    function ToggleLogging(): Config
    {
      this.(logEnabled := !logEnabled).AddToSettingsLog(ToggledLoggingEntry).RefreshStatus()
    }

    function AskLogFilePath(): Config
    {
      this.(popups := popups + [TextBoxPopup(LogPathPrompt, ThenUpdateLogFilePath)])
    }

    function AskDefaultEditor(): Config
    {
      this.(popups := popups + [TextBoxPopup(EditorPrompt, ThenUpdateDefaultEditor)])
    }

    function UpdateDefaultEditor(newEditor: string): Config
    {
      var c := this.(defaultEditor := Some(newEditor));
      var c' := if c.editorType == Internal then c.ToggleEditorType() else c;
      c'.AddToSettingsLog(EditorUpdatedEntry(newEditor)).RefreshStatus()
    }

    /** `dirWritable`: the path's directory exists and may be written to. */
    function UpdateLogFilePath(newLogFilePath: string, dirWritable: bool): Config
    {
      if dirWritable then
        this.(logPath := newLogFilePath).AddToSettingsLog(LogPathUpdatedEntry(newLogFilePath)).RefreshStatus()
      else
        this.(popups := popups + [ErrorPopup(PermissionErrorTitle, PermissionErrorText)])
    }
  }

  /**
   * The screen, updating its fields in place; each method ends in the state
   * the `Config` function of the same name describes.
   */
  class SettingsScreen {
    var editorType: string
    var defaultEditor: Option<string>
    var log: string
    var logEnabled: bool
    var logPath: string
    var debugLabel: string
    var editorLabel: string
    var popups: seq<Popup>

    function State(): Config
      reads this
    {
      Config(editorType, defaultEditor, log, logEnabled, logPath, debugLabel, editorLabel, popups)
    }

    /** The widgets as first built: an empty log, and a debug label that reads "OFF" whatever the logger's state. */
    constructor (editorType: string, defaultEditor: Option<string>, logEnabled: bool, logPath: string)
      ensures State() == Config(editorType, defaultEditor, "", logEnabled, logPath,
                                "OFF - " + logPath, EditorLabel(editorType, defaultEditor), [])
    {
      this.editorType := editorType;
      this.defaultEditor := defaultEditor;
      this.logEnabled := logEnabled;
      this.logPath := logPath;
      debugLabel := "OFF - " + logPath;
      editorLabel := editorType + " - " + OptionText(defaultEditor);
      log := "";
      popups := [];
    }

    method AddToSettingsLog(text: string)
      modifies this
      ensures State() == old(State()).AddToSettingsLog(text)
    {
      log := text + "\n" + log;
    }

    method AskLogFilePath()
      modifies this
      ensures State() == old(State()).AskLogFilePath()
    {
      popups := popups + [TextBoxPopup(LogPathPrompt, ThenUpdateLogFilePath)];
    }

    method ToggleEditorType()
      modifies this
      ensures State() == old(State()).ToggleEditorType()
    {
      if editorType == Internal {
        editorType := External;
      } else {
        editorType := Internal;
      }
      AddToSettingsLog(SwappedEntry);
      RefreshStatus();
    }

    method ToggleLogging()
      modifies this
      ensures State() == old(State()).ToggleLogging()
    {
      logEnabled := !logEnabled;
      AddToSettingsLog(ToggledLoggingEntry);
      RefreshStatus();
    }

    method AskDefaultEditor()
      modifies this
      ensures State() == old(State()).AskDefaultEditor()
    {
      popups := popups + [TextBoxPopup(EditorPrompt, ThenUpdateDefaultEditor)];
    }

    method UpdateDefaultEditor(newEditor: string)
      modifies this
      ensures State() == old(State()).UpdateDefaultEditor(newEditor)
    {
      defaultEditor := Some(newEditor);
      if editorType == Internal {
        ToggleEditorType();
      }
      AddToSettingsLog(EditorUpdatedEntry(newEditor));
      RefreshStatus();
    }

    method UpdateLogFilePath(newLogFilePath: string, dirWritable: bool)
      modifies this
      ensures State() == old(State()).UpdateLogFilePath(newLogFilePath, dirWritable)
    {
      if dirWritable {
        logPath := newLogFilePath;
        AddToSettingsLog(LogPathUpdatedEntry(newLogFilePath));
        RefreshStatus();
      } else {
        popups := popups + [ErrorPopup(PermissionErrorTitle, PermissionErrorText)];
      }
    }

    method RefreshStatus()
      modifies this
      ensures State() == old(State()).RefreshStatus()
    {
      var loggingOnOff := "OFF";
      if logEnabled {
        loggingOnOff := "ON";
      }
      debugLabel := loggingOnOff + " - " + logPath;
      editorLabel := editorType + " - " + OptionText(defaultEditor);
    }
  }
}
