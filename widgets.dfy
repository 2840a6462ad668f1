/**
 * The parts of the terminal widgets that the screens read and write: a
 * selectable list panel, a titled text block, and the popups they show.
 * Rendering, layout, colours and key bindings are not modelled.
 */
module Widgets {

  datatype Option<+T> = None | Some(value: T)

  /** What Python's `'{}'.format(x)` prints for an optional string: "None" when absent. */
  function OptionText(o: Option<string>): string
  {
    match o
    case None => "None"
    case Some(v) => v
  }

  /**
   * A scroll-menu panel: its items in display order and the selected index.
   * `Clear` empties it and resets the cursor; `AddItemList` appends.
   */
  datatype Panel = Panel(items: seq<string>, selected: nat)
  {
    /** The panel's selection rule: the cursor is on an item, or the panel is empty. */
    predicate Valid()
    {
      selected < |items| || (|items| == 0 && selected == 0)
    }

    /**
     * The selected item, or None when there is no item under the cursor. On a
     * panel that keeps its selection rule there is one exactly when the panel
     * has items.
     */
    function Get(): (r: Option<string>)
      ensures Valid() ==> (r.Some? <==> |items| > 0)
      ensures r.Some? ==> r.value in items
    {
      if selected < |items| then Some(items[selected]) else None
    }

    /** A cleared panel keeps the selection rule and has nothing selected. */
    function Clear(): (p: Panel)
      ensures p.Valid() && p.Get().None?
    {
      Panel([], 0)
    }

    /**
     * Appending items keeps the selection rule, keeps the items already there
     * in front, and leaves a selected item selected.
     */
    function AddItemList(xs: seq<string>): (p: Panel)
      ensures Valid() ==> p.Valid()
      ensures Get().Some? ==> p.Get() == Get()
    {
      this.(items := items + xs)
    }
  }

  /** The info text block: a title and its text. */
  datatype TextBlock = TextBlock(title: string, text: string)

  /** The callback a prompt hands the user's answer to. */
  datatype Continuation =
    | ThenAskRemoteUrl
    | ThenAddRemote
    | ThenPullBranch
    | ThenPushBranch
    | ThenUpdateLogFilePath
    | ThenUpdateDefaultEditor

  datatype Popup =
    | ErrorPopup(title: string, text: string)
    | MessagePopup(title: string, text: string)
    | WarningPopup(title: string, text: string)
    | TextBoxPopup(prompt: string, callback: Continuation)
    | MenuPopup(title: string, choices: seq<string>)
    | CredentialsPopup(callback: Continuation)
}
