/**
 * What the repository screen promises, stated over the `Screen` functions
 * that the `RepoControlManager` methods are proved to carry out.
 */
module RepoControlProperties {
  import opened Text
  import opened Widgets
  import opened RepoControl

  /** The screen apart from its panels and logs: what a refresh must not touch. */
  predicate SameInputs(s: Screen, r: Screen)
  {
    r.info == s.info && r.commitMessage == s.commitMessage && r.newBranchName == s.newBranchName
    && r.utilityVar == s.utilityVar && r.message == s.message && r.status == s.status
  }

  /** The queries a refresh issues, in order; recent commits only when a branch is under the cursor. */
  function RefreshCommands(branch: Option<string>): seq<Command>
  {
    [GitGetBranches, GitGetRemotes, GitStatusShort]
      + match branch case None => [] case Some(b) => [GitGetRecentCommits(b)]
  }

  // ---------------------------------------------------------------------------
  // Queries and refresh
  // ---------------------------------------------------------------------------

  /** A failed list query leaves its panel alone and shows one error popup naming the query. */
  lemma QueryFailureKeepsPanel(s: Screen, o: Output)
    requires o.err < 0
    ensures s.GetRepoStatusShort(o) == s.(popups := s.popups + [ErrorPopup(StatusQueryFailed, o.out)],
                                         issued := s.issued + [GitStatusShort])
    ensures s.GetRepoRemotes(o) == s.(popups := s.popups + [ErrorPopup(RemotesQueryFailed, o.out)],
                                     issued := s.issued + [GitGetRemotes])
    ensures s.GetRepoBranches(o) == s.(popups := s.popups + [ErrorPopup(BranchesQueryFailed, o.out)],
                                      issued := s.issued + [GitGetBranches])
    ensures s.branches.Get().Some? ==>
      s.GetRecentCommits(o) == s.(popups := s.popups + [ErrorPopup(CommitsQueryFailed, o.out)],
                                  issued := s.issued + [GitGetRecentCommits(s.SelectedBranchName().value)])
  {
  }

  /** A successful list query makes the panel's items exactly the output's lines, in order, with no popup. */
  lemma QuerySuccessReplacesItems(s: Screen, o: Output)
    requires o.err >= 0
    ensures s.GetRepoStatusShort(o).files == Panel(SplitLines(o.out), 0)
    ensures s.GetRepoRemotes(o).remotes == Panel(SplitLines(o.out), 0)
    ensures s.GetRepoBranches(o).branches.items == SplitLines(o.out)
    ensures s.branches.Get().Some? ==> s.GetRecentCommits(o).commits == Panel(SplitLines(o.out), 0)
    ensures s.GetRepoStatusShort(o).popups == s.GetRepoRemotes(o).popups == s.GetRepoBranches(o).popups == s.popups
    ensures s.branches.Get().Some? ==> s.GetRecentCommits(o).popups == s.popups
  {
  }

  /**
   * After a successful branch query the cursor sits after every entry that
   * precedes the first one marked '*', and on that entry if there is one.
   */
  lemma RefreshSelectsCurrentBranch(s: Screen, outs: RefreshOutputs)
    requires outs.branches.err >= 0
    ensures var p := s.RefreshGitStatus(outs).branches;
      p.items == SplitLines(outs.branches.out)
      && p.selected <= |p.items|
      && (forall j :: 0 <= j < p.selected ==> !IsCurrentBranch(p.items[j]))
      && (p.selected < |p.items| ==> IsCurrentBranch(p.items[p.selected]))
  {
  }

  /** With no entry marked '*', the branch cursor lands one past the last entry, so nothing is selected. */
  lemma NoCurrentBranchSelectsPastEnd(s: Screen, outs: RefreshOutputs)
    requires outs.branches.err >= 0
    requires forall k :: 0 <= k < |SplitLines(outs.branches.out)| ==> !IsCurrentBranch(SplitLines(outs.branches.out)[k])
    ensures var p := s.RefreshGitStatus(outs).branches;
      p.selected == |SplitLines(outs.branches.out)| && p.Get().None?
  {
    RefreshSelectsCurrentBranch(s, outs);
  }

  /**
   * After a successful branch query the branch cursor is on an entry, or at 0
   * on an empty list, exactly when the output is empty or marks an entry '*'.
   * Only then can the refresh read the selected branch without failing.
   */
  lemma RefreshBranchCursorValid(s: Screen, outs: RefreshOutputs)
    requires outs.branches.err >= 0
    ensures var lines := SplitLines(outs.branches.out);
      s.RefreshGitStatus(outs).branches.Valid()
      <==> |lines| == 0 || exists k :: 0 <= k < |lines| && IsCurrentBranch(lines[k])
  {
    var lines := SplitLines(outs.branches.out);
    RefreshSelectsCurrentBranch(s, outs);
    var p := s.RefreshGitStatus(outs).branches;
    if k :| 0 <= k < |lines| && IsCurrentBranch(lines[k]) {
      assert p.selected <= k;
    }
  }

  /** The output of `git branch` for two branches, one line each. */
  lemma TwoBranchOutput(a: string, b: string, out: string)
    requires out == a + "\n" + b
    requires '\n' !in a && '\n' !in b && |b| > 0
    ensures SplitLines(out) == [a, b]
  {
    SplitLinesCons(a, b);
    SplitLinesSingle(b);
  }

  /** A branch entry is the current branch exactly when its first character is '*'. */
  lemma MarkedByFirstChar(entry: string)
    ensures IsCurrentBranch(entry) <==> |entry| > 0 && entry[0] == '*'
  {
    StartsWithChar(entry, '*');
  }

  /** Over two entries, the cursor goes to the first one marked, or past both. */
  lemma CurrentBranchIndexTwo(a: string, b: string)
    ensures CurrentBranchIndex([a, b])
      == if IsCurrentBranch(a) then 0 else if IsCurrentBranch(b) then 1 else 2
  {
    assert [a, b][1..] == [b];
    assert [b][1..] == [];
  }

  /** The branch output "* main\n  dev" selects index 0, "main". */
  lemma FirstBranchCurrent()
    ensures CurrentBranchIndex(SplitLines("* main\n  dev")) == 0
  {
    CurrentBranchIndexTwo("* main", "  dev");
    TwoBranchOutput("* main", "  dev", "* main\n  dev");
    MarkedByFirstChar("* main");
    assert "* main"[0] == '*';
  }

  /** The branch output "  main\n* dev" selects index 1, "dev". */
  lemma SecondBranchCurrent()
    ensures CurrentBranchIndex(SplitLines("  main\n* dev")) == 1
  {
    CurrentBranchIndexTwo("  main", "* dev");
    TwoBranchOutput("  main", "* dev", "  main\n* dev");
    MarkedByFirstChar("  main");
    MarkedByFirstChar("* dev");
    assert "  main"[0] == ' ' && "* dev"[0] == '*';
  }

  /** The branch output "  main\n  dev" marks no branch and leaves the cursor at 2, past the end. */
  lemma NoBranchCurrent()
    ensures CurrentBranchIndex(SplitLines("  main\n  dev")) == 2
  {
    CurrentBranchIndexTwo("  main", "  dev");
    TwoBranchOutput("  main", "  dev", "  main\n  dev");
    MarkedByFirstChar("  main");
    MarkedByFirstChar("  dev");
    assert "  main"[0] == ' ' && "  dev"[0] == ' ';
  }

  /** A refresh issues the four queries in order and changes nothing outside the panels and the popups. */
  lemma RefreshIssuesQueries(s: Screen, outs: RefreshOutputs)
    ensures var r := s.RefreshGitStatus(outs);
      r.issued == s.issued + RefreshCommands(r.SelectedBranchName())
      && SameInputs(s, r)
  {
  }

  /**
   * The remotes and files cursors come back to their place before the
   * refresh when the new list is strictly longer than that index; otherwise
   * the refreshed panel keeps the index it has (0 after a successful query).
   */
  lemma RefreshRestoresSelection(s: Screen, outs: RefreshOutputs)
    ensures var r := s.RefreshGitStatus(outs);
      (outs.remotes.err < 0 ==> r.remotes == s.remotes)
      && (outs.remotes.err >= 0 ==>
            r.remotes.items == SplitLines(outs.remotes.out)
            && r.remotes.selected == (if s.remotes.selected < |r.remotes.items| then s.remotes.selected else 0))
      && (outs.status.err < 0 ==> r.files == s.files)
      && (outs.status.err >= 0 ==>
            r.files.items == SplitLines(outs.status.out)
            && r.files.selected == (if s.files.selected < |r.files.items| then s.files.selected else 0))
  {
  }

  /** A refresh keeps the remotes, files and commits cursors on an item (or at 0 on an empty list). */
  lemma RefreshKeepsCursorsValid(s: Screen, outs: RefreshOutputs)
    requires s.remotes.Valid() && s.files.Valid() && s.commits.Valid()
    ensures var r := s.RefreshGitStatus(outs);
      r.remotes.Valid() && r.files.Valid() && r.commits.Valid()
  {
    RefreshRestoresSelection(s, outs);
  }

  /**
   * ... which the branch panel does not: a branch list with no entry marked
   * '*' (here the single line "  main") leaves its cursor past the end.
   */
  lemma RefreshCanLeaveBranchCursorPastEnd(s: Screen, outs: RefreshOutputs)
    requires outs.branches == Output("  main", 0)
    ensures s.RefreshGitStatus(outs).branches == Panel(["  main"], 1)
    ensures !s.RefreshGitStatus(outs).branches.Valid()
  {
    SplitLinesSingle("  main");
    MarkedByFirstChar("  main");
    assert "  main"[0] == ' ';
    RefreshSelectsCurrentBranch(s, outs);
  }

  // ---------------------------------------------------------------------------
  // Actions
  // ---------------------------------------------------------------------------

  /**
   * The add-remote chain: the name travels through the scratch slot into the
   * command, the slot is empty afterwards, and the remotes panel is refreshed
   * only when the command did not fail. Because the panel is cleared before
   * the refresh, its cursor is at 0 afterwards, and it stays empty if the
   * remotes query then fails.
   */
  lemma AddRemoteChain(s: Screen, name: string, url: string, o: Output, outs: RefreshOutputs)
    ensures var r := s.AskNewRemoteName().AskNewRemoteUrl(name).AddRemote(url, o, outs);
      r.utilityVar == None
      && |r.issued| > |s.issued| && r.issued[|s.issued|] == GitAddRemote(Some(name), url)
      && (o.err < 0 ==> r.remotes == s.remotes && r.issued == s.issued + [GitAddRemote(Some(name), url)])
      && (o.err >= 0 ==> r.remotes == Panel(if outs.remotes.err < 0 then [] else SplitLines(outs.remotes.out), 0))
  {
  }

  /** The prompts of the chain, in order, each feeding the next step. */
  lemma AddRemotePrompts(s: Screen, name: string)
    ensures s.ProcessMenuSelection(AddRemoteChoice).AskNewRemoteUrl(name).popups
      == s.popups + [TextBoxPopup(RemoteNamePrompt, ThenAskRemoteUrl),
                     TextBoxPopup(RemoteUrlPrompt, ThenAddRemote)]
  {
  }

  /**
   * Add/revert stages the path of an unstaged or untracked entry and resets
   * any other; it refreshes exactly when the command's status is not negative.
   */
  lemma AddRevertStagesOrResets(s: Screen, o: Output, outs: RefreshOutputs)
    requires s.files.Get().Some?
    ensures var entry := s.files.Get().value;
      var r := s.AddRevertFile(o, outs);
      var c := if StartsWith(entry, " ") || StartsWith(entry, "?") then GitAddFile(Drop(entry, 3)) else GitResetFile(Drop(entry, 3));
      r.issued[..|s.issued| + 1] == s.issued + [c]
      && (|r.issued| > |s.issued| + 1 <==> o.err >= 0)
      && (o.err >= 0 ==> r.issued[|s.issued| + 1] == GitGetBranches)
      && (o.err < 0 ==> r == s.(issued := s.issued + [c], popups := s.popups + [ErrorPopup(AddRevertFailedTitle(entry), o.out)]))
  {
    var entry := s.files.Get().value;
    var s1 := s.(issued := s.issued + [AddRevertCommand(entry)]);
    if o.err >= 0 {
      RefreshIssuesQueries(s1, outs);
      var r := s1.RefreshGitStatus(outs);
      assert r.issued == s1.issued + RefreshCommands(r.SelectedBranchName());
    }
  }

  /** The two entries " M file.txt" and "M  file.txt": the first is staged, the second reset. */
  lemma AddRevertExamples()
    ensures AddRevertCommand(" M file.txt") == GitAddFile("file.txt")
    ensures AddRevertCommand("?? new.txt") == GitAddFile("new.txt")
    ensures AddRevertCommand("M  file.txt") == GitResetFile("file.txt")
  {
    assert " M " + "file.txt" == " M file.txt";
    AddRevertExample(" M ", "file.txt");
    assert "?? " + "new.txt" == "?? new.txt";
    AddRevertExample("?? ", "new.txt");
    assert "M  " + "file.txt" == "M  file.txt";
    AddRevertExample("M  ", "file.txt");
  }

  /** An entry is its three-character status followed by the path it names. */
  lemma AddRevertExample(status: string, path: string)
    requires |status| == 3
    ensures AddRevertCommand(status + path).path == path
    ensures AddRevertCommand(status + path).GitAddFile? <==> status[0] == ' ' || status[0] == '?'
  {
    var c := AddRevertCommand(status + path);
    assert (status + path)[0] == status[0];
    assert (status + path)[..3] == status;
    assert status + c.path == status + path;
    assert c.path == (status + c.path)[3..];
  }

  /** Staging everything refreshes only on a zero status. */
  lemma AddAllRefreshesOnSuccessOnly(s: Screen, o: Output, outs: RefreshOutputs)
    ensures var r := s.AddAllChanges(o, outs);
      (o.err != 0 ==> r == s.(issued := s.issued + [GitAddAll], popups := s.popups + [ErrorPopup(AddAllFailed, o.out)]))
      && (o.err == 0 ==> r.issued[..|s.issued| + 2] == s.issued + [GitAddAll, GitGetBranches])
  {
    var r := s.AddAllChanges(o, outs);
    if o.err == 0 {
      RefreshIssuesQueries(s.(issued := s.issued + [GitAddAll]), outs);
    }
  }

  /** Actions, refreshes and queries only ever append to the popups and the commands issued. */
  predicate Extends(s: Screen, r: Screen)
  {
    s.popups <= r.popups && s.issued <= r.issued
  }

  lemma RefreshExtends(s: Screen, outs: RefreshOutputs)
    ensures Extends(s, s.RefreshGitStatus(outs))
  {
  }

  lemma ShowLogExtends(s: Screen, log: Output)
    ensures Extends(s, s.ShowLog(log))
  {
  }

  /**
   * Without a selected branch the log does nothing. Otherwise it asks for the
   * log of the branch name without its two-character marker; a negative status
   * adds one error popup naming that branch, any other status shows the output
   * under "Git log". Nothing else changes.
   */
  lemma ShowLogContract(s: Screen, log: Output)
    ensures s.branches.Get().None? ==> s.ShowLog(log) == s
    ensures s.branches.Get().Some? ==>
      var branch := Drop(s.branches.Get().value, 2);
      var r := s.ShowLog(log);
      r.issued == s.issued + [GitLog(branch)]
      && (log.err < 0 ==> r == s.(issued := r.issued, popups := s.popups + [ErrorPopup(LogFailedTitle(branch), log.out)]))
      && (log.err >= 0 ==> r == s.(issued := r.issued, info := TextBlock(GitLogTitle, log.out)))
  {
  }

  /** A commit leaves the message box empty, whatever the command's status. */
  lemma CommitAlwaysClearsMessage(s: Screen, o: Output, outs: RefreshOutputs, log: Output)
    ensures s.Commit(o, outs, log).commitMessage == ""
  {
  }

  /** A failed commit adds the command and its error popup and changes nothing else. */
  lemma CommitFailureOnlyReports(s: Screen, o: Output, outs: RefreshOutputs, log: Output)
    requires o.err != 0
    ensures s.Commit(o, outs, log)
      == s.(commitMessage := "", issued := s.issued + [GitCommitChanges(s.commitMessage)],
            popups := s.popups + [ErrorPopup(CommitFailed, o.out)])
  {
  }

  /** A successful commit reports the message, then refreshes, then queries the log. */
  lemma CommitSuccessRefreshes(s: Screen, o: Output, outs: RefreshOutputs, log: Output)
    requires o.err == 0
    ensures var r := s.Commit(o, outs, log);
      r.issued[..|s.issued| + 2] == s.issued + [GitCommitChanges(s.commitMessage), GitGetBranches]
      && r.popups[..|s.popups| + 1] == s.popups + [MessagePopup(CommitSucceeded, CommittedText(s.commitMessage))]
  {
    var s1 := s.(issued := s.issued + [GitCommitChanges(s.commitMessage)],
                 popups := s.popups + [MessagePopup(CommitSucceeded, CommittedText(s.commitMessage))]);
    var s2 := s1.RefreshGitStatus(outs);
    RefreshIssuesQueries(s1, outs);
    RefreshExtends(s1, outs);
    ShowLogExtends(s2, log);
    var r := s.Commit(o, outs, log);
    assert r.issued[..|s1.issued| + 1] == s2.issued[..|s1.issued| + 1];
    assert r.popups[..|s1.popups|] == s1.popups;
  }

  /** After a successful commit whose log query succeeds, the info block shows that log. */
  lemma CommitShowsLog(s: Screen, o: Output, outs: RefreshOutputs, log: Output)
    requires o.err == 0 && log.err >= 0
    ensures var r := s.Commit(o, outs, log);
      r.branches.Get().Some? ==> r.info == TextBlock(GitLogTitle, log.out)
  {
  }

  /**
   * An empty branch name shows one error popup and does nothing else; a
   * non-empty one is issued as it is, the box is cleared and the screen
   * refreshed whatever the command's status.
   */
  lemma CreateNewBranchContract(s: Screen, o: Output, outs: RefreshOutputs)
    ensures var r := s.CreateNewBranch(o, outs);
      (|s.newBranchName| == 0 ==>
         r == s.(popups := s.popups + [ErrorPopup(IllegalBranchTitle, IllegalBranchText)]))
      && (|s.newBranchName| > 0 ==>
            r.newBranchName == ""
            && r.issued[..|s.issued| + 2] == s.issued + [GitCreateNewBranch(s.newBranchName), GitGetBranches]
            && (o.err != 0 ==> r.popups[|s.popups|] == ErrorPopup(CreateBranchFailed, o.out)))
  {
    if |s.newBranchName| > 0 {
      var s1 := s.(issued := s.issued + [GitCreateNewBranch(s.newBranchName)]);
      var s2 := if o.err != 0 then s1.(popups := s1.popups + [ErrorPopup(CreateBranchFailed, o.out)]) else s1;
      RefreshIssuesQueries(s2.(newBranchName := ""), outs);
    }
  }

  /** Checking out needs a selected branch; it then issues the name without its marker and always refreshes. */
  lemma CheckoutBranchContract(s: Screen, o: Output, outs: RefreshOutputs)
    ensures var r := s.CheckoutBranch(o, outs);
      (s.branches.Get().None? ==> r == s)
      && (s.branches.Get().Some? ==>
            r.issued[..|s.issued| + 2] == s.issued + [GitCheckoutBranch(Drop(s.branches.Get().value, 2)), GitGetBranches]
            && r.popups[|s.popups|] == if o.err != 0 then ErrorPopup(CheckoutFailed, o.out)
                                       else MessagePopup(CheckoutSucceeded, CheckedOutText(Drop(s.branches.Get().value, 2))))
  {
    if s.branches.Get().Some? {
      var s1 := s.(issued := s.issued + [GitCheckoutBranch(Drop(s.branches.Get().value, 2))]);
      var p := if o.err != 0 then ErrorPopup(CheckoutFailed, o.out)
               else MessagePopup(CheckoutSucceeded, CheckedOutText(Drop(s.branches.Get().value, 2)));
      RefreshIssuesQueries(s1.(popups := s1.popups + [p]), outs);
    }
  }

  /** A pull always refreshes; only a zero status puts its output in the info block. */
  lemma PullAlwaysRefreshes(s: Screen, o: Output, outs: RefreshOutputs)
    requires s.branches.Get().Some?
    ensures var r := s.PullRepoBranch(o, outs);
      var branch := Drop(s.branches.Get().value, 2);
      r.issued[..|s.issued| + 2] == s.issued + [GitPullBranch(branch, s.remotes.Get()), GitGetBranches]
      && (o.err != 0 ==> r.info == s.info && r.popups[|s.popups|] == ErrorPopup(PullFailed, o.out))
      && (o.err == 0 ==> r.info == TextBlock(PullStatusTitle(s.remotes.Get(), branch), o.out))
      && (forall k :: |s.issued| < k < |r.issued| ==> !r.issued[k].GitPullBranch?)
  {
    var branch := Drop(s.branches.Get().value, 2);
    var s1 := s.(issued := s.issued + [GitPullBranch(branch, s.remotes.Get())]);
    var s2 :=
      if o.err != 0 then s1.(popups := s1.popups + [ErrorPopup(PullFailed, o.out)])
      else s1.(info := TextBlock(PullStatusTitle(s.remotes.Get(), branch), o.out),
               popups := s1.popups + [MessagePopup(PulledTitle, PulledText(branch, s.remotes.Get()))]);
    RefreshIssuesQueries(s2, outs);
    var s3 := s2.RefreshGitStatus(outs);
    assert s3.issued == s1.issued + RefreshCommands(s3.SelectedBranchName());
  }

  /**
   * The push result popup is an error exactly when the stored status is
   * nonzero and carries the stored output; the slot is reset afterwards.
   */
  lemma ShowPushResultContract(s: Screen)
    ensures var r := s.ShowPushResult();
      r.status == 0 && r.message == ""
      && r.popups == s.popups + [if s.status != 0 then ErrorPopup(PushFailed, s.message)
                                 else MessagePopup(PushSucceeded, s.message)]
      && r.issued == s.issued && r.branches == s.branches && r.info == s.info
  {
  }

  /**
   * A push with credentials issues the push once, refreshes whatever its
   * status, shows its output in the info block and in the popup chosen by
   * the status, and leaves the result slot empty.
   */
  lemma PushRunsOnceAndReports(s: Screen, o: Output, outs: RefreshOutputs)
    requires s.branches.Get().Some?
    ensures var r := s.PushRepoBranchCred(true, o, outs);
      r.issued[..|s.issued| + 2] == s.issued + [GitPushToBranch(Drop(s.branches.Get().value, 2), s.remotes.Get()), GitGetBranches]
      && (forall k :: |s.issued| < k < |r.issued| ==> !r.issued[k].GitPushToBranch?)
      && r.info.text == o.out
      && r.popups[|r.popups| - 1] == (if o.err != 0 then ErrorPopup(PushFailed, o.out)
                                      else MessagePopup(PushSucceeded, o.out))
      && r.status == 0 && r.message == ""
  {
    var s1 := s.(issued := s.issued + [GitPushToBranch(Drop(s.branches.Get().value, 2), s.remotes.Get())],
                 message := o.out, status := o.err);
    RefreshIssuesQueries(s1, outs);
    var s2 := s1.RefreshGitStatus(outs);
    assert s2.issued == s1.issued + RefreshCommands(s2.SelectedBranchName());
  }

  /** Without credentials a push or pull shows one credentials prompt and issues nothing. */
  lemma CredentialGate(s: Screen, o: Output, outs: RefreshOutputs)
    ensures s.PushRepoBranchCred(false, o, outs) == s.(popups := s.popups + [CredentialsPopup(ThenPushBranch)])
    ensures s.PullRepoBranchCred(false, o, outs) == s.(popups := s.popups + [CredentialsPopup(ThenPullBranch)])
  {
  }

  /** A failed remote-info query leaves the info block's text and title as they were. */
  lemma RemoteInfoFailureKeepsInfo(s: Screen, o: Output)
    requires o.err < 0 && s.branches.Get().Some?
    ensures var r := s.ShowRemoteInfo(o);
      r.info == s.info && r.popups == s.popups + [ErrorPopup(RemoteInfoFailed, o.out)]
  {
  }

  /**
   * The editor is always opened on the working directory: the file chosen
   * does not change what happens. Without an editor nothing is issued.
   */
  lemma OpenEditorIgnoresFile(s: Screen, f1: Option<string>, f2: Option<string>, editor: Option<string>, cwd: string, o: Output)
    ensures s.OpenEditor(f1, editor, cwd, o) == s.OpenEditor(f2, editor, cwd, o)
    ensures editor.None? ==> s.OpenEditor(f1, editor, cwd, o).issued == s.issued
    ensures editor.Some? ==> s.OpenEditor(f1, editor, cwd, o).issued == s.issued + [OpenDefaultEditor(editor.value, cwd)]
  {
  }

  /** Only "Add Remote" leads anywhere from the menu; the other choices warn. */
  lemma MenuSelection(s: Screen, selection: string)
    ensures selection == AddRemoteChoice ==>
      s.ProcessMenuSelection(selection).popups == s.popups + [TextBoxPopup(RemoteNamePrompt, ThenAskRemoteUrl)]
    ensures selection != AddRemoteChoice ==>
      s.ProcessMenuSelection(selection).popups == s.popups + [WarningPopup(NotSupportedTitle, NotSupportedText)]
  {
  }
}
