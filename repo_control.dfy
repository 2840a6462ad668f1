/**
 * The repository screen's controller (`RepoControlManager`): four list
 * panels (branches, remotes, changed files, recent commits), an info text
 * block, two text boxes (commit message, new branch name), the scratch slot
 * that carries a remote name between two prompts, and the push result.
 *
 * Every git command is a `Command` appended to `issued`; its `(out, err)`
 * result is a parameter. Every popup shown is appended to `popups`.
 * `Screen` is the value of the whole screen; each of its member functions
 * states what one operation does to it, and the class `RepoControlManager`
 * carries out the same operation step by step on its fields.
 */
module RepoControl {
  import opened Text
  import opened Widgets

  /** The git commands the screen asks for, with their arguments. */
  datatype Command =
    | GitStatusShort
    | GitGetRemotes
    | GitGetBranches
    | GitGetRemoteInfo(remote: Option<string>)
    | GitGetRecentCommits(branch: string)
    | GitLog(branch: string)
    | GitDiff
    | GitDiffFile(path: string)
    | GitAddRemote(remoteName: Option<string>, url: string)
    | GitAddFile(path: string)
    | GitResetFile(path: string)
    | GitAddAll
    | GitCommitChanges(message: string)
    | GitPullBranch(branch: string, remote: Option<string>)
    | GitPushToBranch(branch: string, remote: Option<string>)
    | GitCreateNewBranch(branch: string)
    | GitCheckoutBranch(branch: string)
    | OpenDefaultEditor(editor: string, directory: string)

  /** A command's text output and status: negative for a failed query, nonzero for a failed action. */
  datatype Output = Output(out: string, err: int)

  /** The results of the four queries a refresh makes, in the order it makes them. */
  datatype RefreshOutputs = RefreshOutputs(branches: Output, remotes: Output, status: Output, commits: Output)

  const AddRemoteChoice: string := "Add Remote"
  /** The menu entries; the list the manager keeps as `menu_choices` never changes. */
  const MenuChoices: seq<string> := [AddRemoteChoice, "Add All", "Push Branch", "Pull Branch"]

  // The titles, prompts and texts of the screen's popups and info panel.
  const MenuTitle: string := "Full Control Menu"
  const RemoteNamePrompt: string := "Please enter the new remote name."
  const RemoteUrlPrompt: string := "Please enter the new remote url."
  const NotSupportedTitle: string := "Warning - Not supported"
  const NotSupportedText: string := "This menu item has not yet been implemented."
  const AddRemoteFailed: string := "Failed to add remote"
  const StatusQueryFailed: string := "Cannot get git status"
  const RemotesQueryFailed: string := "Cannot get git remotes"
  const BranchesQueryFailed: string := "Cannot get git branches"
  const CommitsQueryFailed: string := "Cannot get recent commits"
  const RemoteInfoFailed: string := "Cannot get remote info"
  const GitLogTitle: string := "Git log"
  const DiffFailed: string := "Unable to show git diff repo."
  const DiffTitle: string := "Git Diff"
  const NoEditorTitle: string := "Error"
  const NoEditorText: string := "No default editor specified."
  const EditorFailed: string := "Failed to open editor."
  const AddAllFailed: string := "Git Add Error"
  const PullFailed: string := "Failed to pull from remote"
  const PulledTitle: string := "Pulled branch"
  const CommitFailed: string := "Commit failed!"
  const CommitSucceeded: string := "Success"
  const PushFailed: string := "Unable to push to remote!"
  const PushSucceeded: string := "Pushed Successfully"
  const IllegalBranchTitle: string := "ERROR - Illegal branchname"
  const IllegalBranchText: string := "Please enter a valid branchname."
  const CreateBranchFailed: string := "Failed to create branch"
  const CheckoutFailed: string := "Failed to checkout branch"
  const CheckoutSucceeded: string := "Checkout Successful"

  function RemoteInfoTitle(remote: Option<string>): string { OptionText(remote) + " remote info" }
  function LogFailedTitle(branch: string): string { "Unable to show git log for branch " + branch + "." }
  function DiffFileTitle(path: string): string { "Git Diff - " + path }
  function DiffFileFailedTitle(path: string): string { "Unable to show git diff for file " + path + "." }
  function EditorOpenedTitle(directory: string): string { "Opened " + directory }
  function EditorOpenedText(editor: string): string { "Opened " + editor + " editor in external window" }
  function AddRevertFailedTitle(entry: string): string { "Cannot add/revert file " + entry }
  function PullStatusTitle(remote: Option<string>, branch: string): string
  {
    "Git Pull Status - " + OptionText(remote) + " - " + branch
  }
  function PulledText(branch: string, remote: Option<string>): string
  {
    "Successfully pulled branch " + branch + " from remote " + OptionText(remote)
  }
  function CommittedText(message: string): string { "Committed: " + message }
  function CheckedOutText(branch: string): string { "Checked out branch " + branch }

  predicate IsCurrentBranch(entry: string)
  {
    StartsWith(entry, "*")
  }

  /**
   * The index the branch panel selects: the number of entries before the
   * first one marked '*', which is the list's length when none is marked.
   */
  function CurrentBranchIndex(branches: seq<string>): (i: nat)
    ensures i <= |branches|
    ensures forall j :: 0 <= j < i ==> !IsCurrentBranch(branches[j])
    ensures i < |branches| ==> IsCurrentBranch(branches[i])
  {
    if |branches| == 0 || IsCurrentBranch(branches[0]) then 0
    else 1 + CurrentBranchIndex(branches[1..])
  }

  /** A list query: a failure leaves the panel as it was, a success replaces its items by the output's lines. */
  function QueryPanel(p: Panel, o: Output): Panel
  {
    if o.err < 0 then p else p.Clear().AddItemList(SplitLines(o.out))
  }

  /** The popup a failed query shows, if any. */
  function QueryPopups(title: string, o: Output): seq<Popup>
  {
    if o.err < 0 then [ErrorPopup(title, o.out)] else []
  }

  /** The selection a refresh puts back: the snapshot, if the refreshed list still reaches it. */
  function RestoreSelection(p: Panel, snapshot: nat): Panel
  {
    if |p.items| > snapshot then p.(selected := snapshot) else p
  }

  /** A changed-file entry whose status code marks it unstaged or untracked: it is staged, any other is reset. */
  predicate IsUnstaged(entry: string)
  {
    StartsWith(entry, " ") || StartsWith(entry, "?")
  }

  /** A text starts with a one-character prefix exactly when its first character is that character. */
  lemma StartsWithChar(s: string, ch: char)
    ensures StartsWith(s, [ch]) <==> |s| > 0 && s[0] == ch
  {
    if |s| > 0 && s[0] != ch {
      assert s[..1][0] != [ch][0];
    }
  }

  /**
   * The command add/revert issues for a changed-file entry: an entry whose
   * status code starts with a space (unstaged) or '?' (untracked) is staged,
   * any other is reset; the path is what follows the three-character code.
   */
  function AddRevertCommand(entry: string): (c: Command)
    ensures c.GitAddFile? <==> |entry| > 0 && (entry[0] == ' ' || entry[0] == '?')
    ensures c.GitAddFile? || c.GitResetFile?
    ensures |entry| >= 3 ==> entry == entry[..3] + c.path
    ensures |entry| <= 3 ==> c.path == ""
  {
    StartsWithChar(entry, ' ');
    StartsWithChar(entry, '?');
    var path := Drop(entry, 3);
    assert |entry| >= 3 ==> entry == entry[..3] + path;
    if IsUnstaged(entry) then GitAddFile(path) else GitResetFile(path)
  }

  datatype Screen = Screen(
    branches: Panel,
    remotes: Panel,
    files: Panel,
    commits: Panel,
    info: TextBlock,
    commitMessage: string,
    newBranchName: string,
    utilityVar: Option<string>,
    message: string,
    status: int,
    popups: seq<Popup>,
    issued: seq<Command>)
  {
    /** The selected branch's name: the entry without its two-character marker column. */
    function SelectedBranchName(): Option<string>
    {
      match branches.Get()
      case None => None
      case Some(b) => Some(Drop(b, 2))
    }

    /** The selected changed file's path: the entry without its three-character status column. */
    function SelectedFilePath(): Option<string>
    {
      match files.Get()
      case None => None
      case Some(f) => Some(Drop(f, 3))
    }

    function GetRepoStatusShort(o: Output): Screen
    {
      this.(files := QueryPanel(files, o),
            popups := popups + QueryPopups(StatusQueryFailed, o),
            issued := issued + [GitStatusShort])
    }

    function GetRepoRemotes(o: Output): Screen
    {
      this.(remotes := QueryPanel(remotes, o),
            popups := popups + QueryPopups(RemotesQueryFailed, o),
            issued := issued + [GitGetRemotes])
    }

    function GetRepoBranches(o: Output): Screen
    {
      var p := QueryPanel(branches, o);
      this.(branches := if o.err < 0 then p else p.(selected := CurrentBranchIndex(p.items)),
            popups := popups + QueryPopups(BranchesQueryFailed, o),
            issued := issued + [GitGetBranches])
    }

    function GetRecentCommits(o: Output): Screen
    {
      match SelectedBranchName()
      case None => this
      case Some(branch) =>
        this.(commits := QueryPanel(commits, o),
              popups := popups + QueryPopups(CommitsQueryFailed, o),
              issued := issued + [GitGetRecentCommits(branch)])
    }

    /**
     * Re-runs the four queries; then the remotes and files panels get their
     * earlier selection back where the new list is long enough.
     */
    function RefreshGitStatus(outs: RefreshOutputs): Screen
    {
      var s := GetRepoBranches(outs.branches).GetRepoRemotes(outs.remotes)
                 .GetRepoStatusShort(outs.status).GetRecentCommits(outs.commits);
      s.(remotes := RestoreSelection(s.remotes, remotes.selected),
         files := RestoreSelection(s.files, files.selected))
    }

    function ShowMenu(): Screen
    {
      this.(popups := popups + [MenuPopup(MenuTitle, MenuChoices)])
    }

    function AskNewRemoteName(): Screen
    {
      this.(popups := popups + [TextBoxPopup(RemoteNamePrompt, ThenAskRemoteUrl)])
    }

    function ProcessMenuSelection(selection: string): Screen
    {
      if selection == AddRemoteChoice then AskNewRemoteName()
      else this.(popups := popups + [WarningPopup(NotSupportedTitle, NotSupportedText)])
    }

    function AskNewRemoteUrl(name: string): Screen
    {
      this.(utilityVar := Some(name),
            popups := popups + [TextBoxPopup(RemoteUrlPrompt, ThenAddRemote)])
    }

    function AddRemote(url: string, o: Output, outs: RefreshOutputs): Screen
    {
      var s := this.(utilityVar := None, issued := issued + [GitAddRemote(utilityVar, url)]);
      if o.err < 0 then s.(popups := s.popups + [ErrorPopup(AddRemoteFailed, o.out)])
      else s.(remotes := s.remotes.Clear()).RefreshGitStatus(outs)
    }

    function ShowRemoteInfo(o: Output): Screen
    {
      if branches.Get().None? then this
      else
        var remote := remotes.Get();
        var s := this.(issued := issued + [GitGetRemoteInfo(remote)]);
        if o.err < 0 then s.(popups := s.popups + [ErrorPopup(RemoteInfoFailed, o.out)])
        else s.(info := TextBlock(RemoteInfoTitle(remote), o.out))
    }

    function ShowLog(o: Output): Screen
    {
      match SelectedBranchName()
      case None => this
      case Some(branch) =>
        var s := this.(issued := issued + [GitLog(branch)]);
        if o.err < 0 then s.(popups := s.popups + [ErrorPopup(LogFailedTitle(branch), o.out)])
        else s.(info := TextBlock(GitLogTitle, o.out))
    }

    function OpenGitDiff(o: Output): Screen
    {
      var s := this.(issued := issued + [GitDiff]);
      if o.err < 0 then s.(popups := s.popups + [ErrorPopup(DiffFailed, o.out)])
      else s.(info := TextBlock(DiffTitle, o.out))
    }

    function OpenGitDiffFile(o: Output): Screen
      requires files.Get().Some?
    {
      var path := SelectedFilePath().value;
      var s := this.(issued := issued + [GitDiffFile(path)]);
      if o.err < 0 then s.(popups := s.popups + [ErrorPopup(DiffFileFailedTitle(path), o.out)])
      else s.(info := TextBlock(DiffFileTitle(path), o.out))
    }

    /**
     * Opens the external editor on the working directory. The file argument
     * does not reach the command: `open_editor` joins it to the directory and
     * drops the result.
     */
    function OpenEditor(file: Option<string>, defaultEditor: Option<string>, cwd: string, o: Output): Screen
    {
      match defaultEditor
      case None => this.(popups := popups + [ErrorPopup(NoEditorTitle, NoEditorText)])
      case Some(editor) =>
        var s := this.(issued := issued + [OpenDefaultEditor(editor, cwd)]);
        if o.err != 0 then s.(popups := s.popups + [ErrorPopup(EditorFailed, o.out)])
        else s.(popups := s.popups + [MessagePopup(EditorOpenedTitle(cwd), EditorOpenedText(editor))])
    }

    function OpenEditorFile(defaultEditor: Option<string>, cwd: string, o: Output): Screen
      requires files.Get().Some?
    {
      OpenEditor(SelectedFilePath(), defaultEditor, cwd, o)
    }

    function AddAllChanges(o: Output, outs: RefreshOutputs): Screen
    {
      var s := this.(issued := issued + [GitAddAll]);
      if o.err != 0 then s.(popups := s.popups + [ErrorPopup(AddAllFailed, o.out)])
      else s.RefreshGitStatus(outs)
    }

    function AddRevertFile(o: Output, outs: RefreshOutputs): Screen
      requires files.Get().Some?
    {
      var entry := files.Get().value;
      var s := this.(issued := issued + [AddRevertCommand(entry)]);
      if o.err < 0 then s.(popups := s.popups + [ErrorPopup(AddRevertFailedTitle(entry), o.out)])
      else s.RefreshGitStatus(outs)
    }

    function PullRepoBranch(o: Output, outs: RefreshOutputs): Screen
      requires branches.Get().Some?
    {
      var branch := SelectedBranchName().value;
      var remote := remotes.Get();
      var s := this.(issued := issued + [GitPullBranch(branch, remote)]);
      var s' :=
        if o.err != 0 then s.(popups := s.popups + [ErrorPopup(PullFailed, o.out)])
        else s.(info := TextBlock(PullStatusTitle(remote, branch), o.out),
                popups := s.popups + [MessagePopup(PulledTitle, PulledText(branch, remote))]);
      s'.RefreshGitStatus(outs)
    }

    /** The credential gate in front of a pull: without credentials, only the credentials prompt. */
    function PullRepoBranchCred(credentialsEntered: bool, o: Output, outs: RefreshOutputs): Screen
      requires credentialsEntered ==> branches.Get().Some?
    {
      if !credentialsEntered then this.(popups := popups + [CredentialsPopup(ThenPullBranch)])
      else PullRepoBranch(o, outs)
    }

    function Commit(o: Output, outs: RefreshOutputs, log: Output): Screen
    {
      var s := this.(issued := issued + [GitCommitChanges(commitMessage)]);
      var s' :=
        if o.err != 0 then s.(popups := s.popups + [ErrorPopup(CommitFailed, o.out)])
        else s.(popups := s.popups + [MessagePopup(CommitSucceeded, CommittedText(commitMessage))])
               .RefreshGitStatus(outs).ShowLog(log);
      s'.(commitMessage := "")
    }

    /** The push itself: stores the result in the message/status slot, refreshes, and shows the output. */
    function PushRepoBranch(o: Output, outs: RefreshOutputs): Screen
      requires branches.Get().Some?
    {
      var s := this.(issued := issued + [GitPushToBranch(SelectedBranchName().value, remotes.Get())],
                     message := o.out, status := o.err);
      var s' := s.RefreshGitStatus(outs);
      s'.(info := s'.info.(text := s'.message))
    }

    function ShowPushResult(): Screen
    {
      var p := if status != 0 then ErrorPopup(PushFailed, message)
               else MessagePopup(PushSucceeded, message);
      this.(popups := popups + [p], status := 0, message := "")
    }

    /** The credential gate in front of a push; the push is followed by its result popup. */
    function PushRepoBranchCred(credentialsEntered: bool, o: Output, outs: RefreshOutputs): Screen
      requires credentialsEntered ==> branches.Get().Some?
    {
      if !credentialsEntered then this.(popups := popups + [CredentialsPopup(ThenPushBranch)])
      else PushRepoBranch(o, outs).ShowPushResult()
    }

    function CreateNewBranch(o: Output, outs: RefreshOutputs): Screen
    {
      if |newBranchName| == 0 then
        this.(popups := popups + [ErrorPopup(IllegalBranchTitle, IllegalBranchText)])
      else
        var s := this.(issued := issued + [GitCreateNewBranch(newBranchName)]);
        var s' := if o.err != 0 then s.(popups := s.popups + [ErrorPopup(CreateBranchFailed, o.out)]) else s;
        s'.(newBranchName := "").RefreshGitStatus(outs)
    }

    function CheckoutBranch(o: Output, outs: RefreshOutputs): Screen
    {
      match SelectedBranchName()
      case None => this
      case Some(branch) =>
        var s := this.(issued := issued + [GitCheckoutBranch(branch)]);
        var s' :=
          if o.err != 0 then s.(popups := s.popups + [ErrorPopup(CheckoutFailed, o.out)])
          else s.(popups := s.popups + [MessagePopup(CheckoutSucceeded, CheckedOutText(branch))]);
        s'.RefreshGitStatus(outs)
    }
  }

  /**
   * The controller itself. Its fields are the widgets' contents it reads and
   * writes; each method performs one operation in place and ends in the state
   * that the `Screen` function of the same name describes.
   */
  class RepoControlManager {
    var branches: Panel
    var remotes: Panel
    var files: Panel
    var commits: Panel
    var info: TextBlock
    var commitMessage: string
    var newBranchName: string
    var utilityVar: Option<string>
    var message: string
    var status: int
    var popups: seq<Popup>
    var issued: seq<Command>

    function State(): Screen
      reads this
    {
      Screen(branches, remotes, files, commits, info, commitMessage, newBranchName,
             utilityVar, message, status, popups, issued)
    }

    /** Takes over the screen's widgets; the push result slot and the scratch slot start empty. */
    constructor (widgets: Screen)
      ensures State() == widgets.(message := "", status := 0, utilityVar := None)
    {
      branches, remotes, files, commits := widgets.branches, widgets.remotes, widgets.files, widgets.commits;
      info, commitMessage, newBranchName := widgets.info, widgets.commitMessage, widgets.newBranchName;
      popups, issued := widgets.popups, widgets.issued;
      message := "";
      status := 0;
      utilityVar := None;
    }

    method ProcessMenuSelection(selection: string)
      modifies this
      ensures State() == old(State()).ProcessMenuSelection(selection)
    {
      if selection == AddRemoteChoice {
        AskNewRemoteName();
      } else {
        popups := popups + [WarningPopup(NotSupportedTitle, NotSupportedText)];
      }
    }

    method ShowMenu()
      modifies this
      ensures State() == old(State()).ShowMenu()
    {
      popups := popups + [MenuPopup(MenuTitle, MenuChoices)];
    }

    method RefreshGitStatus(outs: RefreshOutputs)
      modifies this
      ensures State() == old(State()).RefreshGitStatus(outs)
    {
      var remote := remotes.selected;
      var selectedFile := files.selected;
      GetRepoBranches(outs.branches);
      GetRepoRemotes(outs.remotes);
      GetRepoStatusShort(outs.status);
      GetRecentCommits(outs.commits);
      if |remotes.items| > remote {
        remotes := remotes.(selected := remote);
      }
      if |files.items| > selectedFile {
        files := files.(selected := selectedFile);
      }
    }

    method AddRemote(url: string, o: Output, outs: RefreshOutputs)
      modifies this
      ensures State() == old(State()).AddRemote(url, o, outs)
    {
      var remoteName := utilityVar;
      utilityVar := None;
      issued := issued + [GitAddRemote(remoteName, url)];
      if o.err < 0 {
        popups := popups + [ErrorPopup(AddRemoteFailed, o.out)];
      } else {
        remotes := remotes.Clear();
        RefreshGitStatus(outs);
      }
    }

    method AskNewRemoteUrl(remoteName: string)
      modifies this
      ensures State() == old(State()).AskNewRemoteUrl(remoteName)
    {
      utilityVar := Some(remoteName);
      popups := popups + [TextBoxPopup(RemoteUrlPrompt, ThenAddRemote)];
    }

    method AskNewRemoteName()
      modifies this
      ensures State() == old(State()).AskNewRemoteName()
    {
      popups := popups + [TextBoxPopup(RemoteNamePrompt, ThenAskRemoteUrl)];
    }

    method GetRepoStatusShort(o: Output)
      modifies this
      ensures State() == old(State()).GetRepoStatusShort(o)
    {
      issued := issued + [GitStatusShort];
      if o.err < 0 {
        popups := popups + [ErrorPopup(StatusQueryFailed, o.out)];
      } else {
        files := files.Clear();
        files := files.AddItemList(SplitLines(o.out));
      }
    }

    method GetRepoRemotes(o: Output)
      modifies this
      ensures State() == old(State()).GetRepoRemotes(o)
    {
      issued := issued + [GitGetRemotes];
      if o.err < 0 {
        popups := popups + [ErrorPopup(RemotesQueryFailed, o.out)];
      } else {
        remotes := remotes.Clear();
        remotes := remotes.AddItemList(SplitLines(o.out));
      }
    }

    /** Refills the branch panel and moves the cursor past every entry before the first one marked '*'. */
    method GetRepoBranches(o: Output)
      modifies this
      ensures State() == old(State()).GetRepoBranches(o)
    {
      issued := issued + [GitGetBranches];
      if o.err < 0 {
        popups := popups + [ErrorPopup(BranchesQueryFailed, o.out)];
      } else {
        branches := branches.Clear();
        branches := branches.AddItemList(SplitLines(o.out));
        var items := branches.items;
        var selectedBranch: nat := 0;
        for k := 0 to |items|
          invariant selectedBranch == k
          invariant forall j :: 0 <= j < k ==> !IsCurrentBranch(items[j])
        {
          if IsCurrentBranch(items[k]) {
            break;
          }
          selectedBranch := selectedBranch + 1;
        }
        branches := branches.(selected := selectedBranch);
      }
    }

    method ShowRemoteInfo(o: Output)
      modifies this
      ensures State() == old(State()).ShowRemoteInfo(o)
    {
      if branches.Get().None? {
        return;
      }
      var remote := remotes.Get();
      issued := issued + [GitGetRemoteInfo(remote)];
      if o.err < 0 {
        popups := popups + [ErrorPopup(RemoteInfoFailed, o.out)];
      } else {
        info := TextBlock(info.title, "");
        info := info.(text := o.out);
        info := info.(title := RemoteInfoTitle(remote));
      }
    }

    method GetRecentCommits(o: Output)
      modifies this
      ensures State() == old(State()).GetRecentCommits(o)
    {
      var selected := branches.Get();
      if selected.None? {
        return;
      }
      var branch := Drop(selected.value, 2);
      issued := issued + [GitGetRecentCommits(branch)];
      if o.err < 0 {
        popups := popups + [ErrorPopup(CommitsQueryFailed, o.out)];
      } else {
        commits := commits.Clear();
        commits := commits.AddItemList(SplitLines(o.out));
      }
    }

    method ShowLog(o: Output)
      modifies this
      ensures State() == old(State()).ShowLog(o)
    {
      var selected := branches.Get();
      if selected.None? {
        return;
      }
      var branch := Drop(selected.value, 2);
      issued := issued + [GitLog(branch)];
      if o.err < 0 {
        popups := popups + [ErrorPopup(LogFailedTitle(branch), o.out)];
      } else {
        info := info.(text := o.out);
        info := info.(title := GitLogTitle);
      }
    }

    method OpenGitDiff(o: Output)
      modifies this
      ensures State() == old(State()).OpenGitDiff(o)
    {
      issued := issued + [GitDiff];
      if o.err < 0 {
        popups := popups + [ErrorPopup(DiffFailed, o.out)];
      } else {
        info := info.(text := o.out);
        info := info.(title := DiffTitle);
      }
    }

    method OpenGitDiffFile(o: Output)
      requires files.Get().Some?
      modifies this
      ensures State() == old(State()).OpenGitDiffFile(o)
    {
      var filename := Drop(files.Get().value, 3);
      issued := issued + [GitDiffFile(filename)];
      if o.err < 0 {
        popups := popups + [ErrorPopup(DiffFileFailedTitle(filename), o.out)];
      } else {
        info := info.(text := o.out);
        info := info.(title := DiffFileTitle(filename));
      }
    }

    method OpenEditor(file: Option<string>, defaultEditor: Option<string>, cwd: string, o: Output)
      modifies this
      ensures State() == old(State()).OpenEditor(file, defaultEditor, cwd, o)
    {
      if defaultEditor.None? {
        popups := popups + [ErrorPopup(NoEditorTitle, NoEditorText)];
      } else {
        var currentPath := cwd;
        issued := issued + [OpenDefaultEditor(defaultEditor.value, currentPath)];
        if o.err != 0 {
          popups := popups + [ErrorPopup(EditorFailed, o.out)];
        } else {
          popups := popups + [MessagePopup(EditorOpenedTitle(currentPath), EditorOpenedText(defaultEditor.value))];
        }
      }
    }

    method OpenEditorFile(defaultEditor: Option<string>, cwd: string, o: Output)
      requires files.Get().Some?
      modifies this
      ensures State() == old(State()).OpenEditorFile(defaultEditor, cwd, o)
    {
      var filename := Drop(files.Get().value, 3);
      OpenEditor(Some(filename), defaultEditor, cwd, o);
    }

    method AddAllChanges(o: Output, outs: RefreshOutputs)
      modifies this
      ensures State() == old(State()).AddAllChanges(o, outs)
    {
      issued := issued + [GitAddAll];
      if o.err != 0 {
        popups := popups + [ErrorPopup(AddAllFailed, o.out)];
      } else {
        RefreshGitStatus(outs);
      }
    }

    method AddRevertFile(o: Output, outs: RefreshOutputs)
      requires files.Get().Some?
      modifies this
      ensures State() == old(State()).AddRevertFile(o, outs)
    {
      var filename := files.Get().value;
      if StartsWith(filename, " ") || StartsWith(filename, "?") {
        issued := issued + [GitAddFile(Drop(filename, 3))];
      } else {
        issued := issued + [GitResetFile(Drop(filename, 3))];
      }
      if o.err < 0 {
        popups := popups + [ErrorPopup(AddRevertFailedTitle(filename), o.out)];
      } else {
        RefreshGitStatus(outs);
      }
    }

    method PullRepoBranchCred(credentialsEntered: bool, o: Output, outs: RefreshOutputs)
      requires credentialsEntered ==> branches.Get().Some?
      modifies this
      ensures State() == old(State()).PullRepoBranchCred(credentialsEntered, o, outs)
    {
      if !credentialsEntered {
        popups := popups + [CredentialsPopup(ThenPullBranch)];
      } else {
        PullRepoBranch(o, outs);
      }
    }

    method PullRepoBranch(o: Output, outs: RefreshOutputs)
      requires branches.Get().Some?
      modifies this
      ensures State() == old(State()).PullRepoBranch(o, outs)
    {
      var branch := Drop(branches.Get().value, 2);
      var remote := remotes.Get();
      issued := issued + [GitPullBranch(branch, remote)];
      if o.err != 0 {
        popups := popups + [ErrorPopup(PullFailed, o.out)];
      } else {
        info := info.(text := o.out);
        info := info.(title := PullStatusTitle(remote, branch));
        popups := popups + [MessagePopup(PulledTitle, PulledText(branch, remote))];
      }
      RefreshGitStatus(outs);
    }

    method Commit(o: Output, outs: RefreshOutputs, log: Output)
      modifies this
      ensures State() == old(State()).Commit(o, outs, log)
    {
      var text := commitMessage;
      issued := issued + [GitCommitChanges(text)];
      if o.err != 0 {
        popups := popups + [ErrorPopup(CommitFailed, o.out)];
      } else {
        popups := popups + [MessagePopup(CommitSucceeded, CommittedText(text))];
        RefreshGitStatus(outs);
        ShowLog(log);
      }
      commitMessage := "";
    }

    /** The push as a plain sequential call, followed by its result popup. */
    method PushRepoBranchCred(credentialsEntered: bool, o: Output, outs: RefreshOutputs)
      requires credentialsEntered ==> branches.Get().Some?
      modifies this
      ensures State() == old(State()).PushRepoBranchCred(credentialsEntered, o, outs)
    {
      if !credentialsEntered {
        popups := popups + [CredentialsPopup(ThenPushBranch)];
      } else {
        PushRepoBranch(o, outs);
        ShowPushResult();
      }
    }

    method PushRepoBranch(o: Output, outs: RefreshOutputs)
      requires branches.Get().Some?
      modifies this
      ensures State() == old(State()).PushRepoBranch(o, outs)
    {
      var branch := Drop(branches.Get().value, 2);
      var remote := remotes.Get();
      issued := issued + [GitPushToBranch(branch, remote)];
      message, status := o.out, o.err;
      RefreshGitStatus(outs);
      info := info.(text := message);
    }

    method ShowPushResult()
      modifies this
      ensures State() == old(State()).ShowPushResult()
    {
      if status != 0 {
        popups := popups + [ErrorPopup(PushFailed, message)];
      } else {
        popups := popups + [MessagePopup(PushSucceeded, message)];
      }
      status := 0;
      message := "";
    }

    method CreateNewBranch(o: Output, outs: RefreshOutputs)
      modifies this
      ensures State() == old(State()).CreateNewBranch(o, outs)
    {
      var name := newBranchName;
      if |name| == 0 {
        popups := popups + [ErrorPopup(IllegalBranchTitle, IllegalBranchText)];
      } else {
        issued := issued + [GitCreateNewBranch(name)];
        if o.err != 0 {
          popups := popups + [ErrorPopup(CreateBranchFailed, o.out)];
        }
        newBranchName := "";
        RefreshGitStatus(outs);
      }
    }

    method CheckoutBranch(o: Output, outs: RefreshOutputs)
      modifies this
      ensures State() == old(State()).CheckoutBranch(o, outs)
    {
      var selected := branches.Get();
      if selected.Some? {
        var branch := Drop(selected.value, 2);
        issued := issued + [GitCheckoutBranch(branch)];
        if o.err != 0 {
          popups := popups + [ErrorPopup(CheckoutFailed, o.out)];
        } else {
          popups := popups + [MessagePopup(CheckoutSucceeded, CheckedOutText(branch))];
        }
        RefreshGitStatus(outs);
      }
    }
  }
}
