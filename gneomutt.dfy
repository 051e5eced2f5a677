/**
 * The shell's widgets and event handlers. The terminal is an append-only
 * log of the strings fed to the mail client; buttons carry the data the
 * handlers read from them and whether they wear the "folder-active" style;
 * the application context holds the widget handles and the window state.
 */
module Gneomutt {

  import opened Options
  import opened Commands
  import opened KeyRouting
  import opened SearchComposer

  /** The terminal widget: everything fed to the child, in order. */
  class Terminal {
    var fed: seq<string>

    constructor ()
      ensures fed == []
    {
      fed := [];
    }

    method Feed(data: string)
      modifies this
      ensures fed == old(fed) + [data]
    {
      fed := fed + [data];
    }
  }

  /** A button of the side panel. */
  class Button {
    var ctx: Gui?                  // the "ctx" object data (folder buttons)
    var clickMacro: Option<string> // the data its "clicked" handler was connected with (folder buttons)
    var keyToSend: Option<string>  // the "key-to-send" object data (action buttons)
    var folderActive: bool         // wears the "folder-active" style class

    constructor ()
      ensures ctx == null && clickMacro == None && keyToSend == None && !folderActive
    {
      ctx := null;
      clickMacro := None;
      keyToSend := None;
      folderActive := false;
    }
  }

  /** Which widget holds the keyboard focus, as far as the handlers can tell. */
  datatype Focus = SearchEntryFocus | TerminalFocus | ElsewhereFocus

  /** The application context shared by every handler. */
  class Gui {
    const terminal: Terminal?
    const folderButtons: array<Button?>
    var focus: Focus
    var windowClosed: bool
    var searchText: string          // the search entry's text
    var fieldOption: Option<string> // the active id of the field combo
    var dateOption: Option<string>  // the active id of the date combo

    /** The folder-button array has exactly one slot per folder of the table. */
    ghost predicate Valid()
      reads this
    {
      folderButtons.Length == NbFolders
    }

    /** A zeroed context with its terminal: every folder slot empty. */
    constructor (terminal: Terminal?)
      ensures Valid() && this.terminal == terminal
      ensures fresh(folderButtons) && folderButtons.Length == NbFolders
      ensures forall i :: 0 <= i < NbFolders ==> folderButtons[i] == null
      ensures focus == ElsewhereFocus && !windowClosed
      ensures searchText == "" && fieldOption == None && dateOption == None
    {
      this.terminal := terminal;
      folderButtons := new Button?[NbFolders](_ => null);
      focus := ElsewhereFocus;
      windowClosed := false;
      searchText := "";
      fieldOption := None;
      dateOption := None;
    }

    /** The non-empty folder slots. */
    function FolderSet(): set<Button>
      reads this, folderButtons
    {
      set i | 0 <= i < folderButtons.Length && folderButtons[i] != null :: folderButtons[i] as Button
    }

    /** Grab focus for the terminal; a missing terminal cannot take it. */
    method GrabTerminalFocus()
      modifies this`focus
      ensures focus == if terminal != null then TerminalFocus else old(focus)
    {
      if terminal != null {
        focus := TerminalFocus;
      }
    }

    /**
     * The quit sequence: feed ESC ":q!" Enter to the mail client (when
     * there is a terminal), then close the window without waiting.
     */
    method OnStopClicked()
      modifies this`windowClosed, terminal
      ensures terminal != null ==> terminal.fed == old(terminal.fed) + [QuitKeys]
      ensures windowClosed
    {
      SendTermData(terminal, QuitKeys);
      windowClosed := true;
    }

    /** The window's key-press handler; the result says whether the event was consumed. */
    method OnKeyPress(ev: KeyEvent) returns (consumed: bool)
      modifies this`focus, this`windowClosed, terminal
      ensures var o := Route(old(focus) == SearchEntryFocus, terminal != null, ev);
              && consumed == o.Consumed()
              && (terminal != null ==> terminal.fed == old(terminal.fed) + o.Writes())
              && windowClosed == (old(windowClosed) || o.ClosesWindow())
              && focus == (if o.Forwarded? then TerminalFocus else old(focus))
    {
      if focus == SearchEntryFocus {
        return false;
      }
      var cmd := FindCommand(ArrowMap, ev.keyval);
      if cmd.Some? && terminal != null {
        terminal.Feed(cmd.value);
        return true;
      }
      if ControlHeld(ev) && ev.keyval == KeyQ {
        OnStopClicked();
        return true;
      }
      if terminal != null && ev.text.Some? {
        if focus != TerminalFocus {
          GrabTerminalFocus();
        }
        terminal.Feed(ev.text.value);
        return true;
      }
      return false;
    }

    /**
     * Submit the search widgets: unless the search is a no-op, feed the
     * query writes one by one, then clear the entry and give the terminal
     * the focus. A no-op changes nothing.
     */
    method OnSearchClicked()
      modifies this`searchText, this`focus, terminal
      ensures var noOp := IsNoOp(old(searchText), dateOption);
              && (terminal != null ==>
                    terminal.fed == old(terminal.fed) + SearchWrites(old(searchText), fieldOption, dateOption))
              && searchText == (if noOp then old(searchText) else "")
              && focus == (if noOp || terminal == null then old(focus) else TerminalFocus)
    {
      var text, option, dateId := searchText, fieldOption, dateOption;
      if text == "" && dateId == Some("any") {
        return;
      }
      SendTermData(terminal, ExecQuery);
      SendDateToken(dateId);
      SendFieldPrefix(option);
      SendTermData(terminal, text);
      SendTermData(terminal, EndOfQuery);
      assert SearchWrites(text, option, dateId)
          == [ExecQuery] + DateWrites(DateRangeOf(dateId)) + FieldWrites(FieldOf(option)) + [text, EndOfQuery];
      searchText := "";
      GrabTerminalFocus();
    }

    /** Step 2 of a search: the date filter token, only for the options today, week and month. */
    method SendDateToken(dateId: Option<string>)
      modifies terminal
      ensures terminal != null ==> terminal.fed == old(terminal.fed) + DateWrites(DateRangeOf(dateId))
    {
      if dateId.Some? && dateId.value != "any" {
        if dateId.value == "today" {
          SendTermData(terminal, TodayToken);
        } else if dateId.value == "week" {
          SendTermData(terminal, WeekToken);
        } else if dateId.value == "month" {
          SendTermData(terminal, MonthToken);
        }
      }
    }

    /** Step 3 of a search: the field prefix, only for the options from and sub. */
    method SendFieldPrefix(option: Option<string>)
      modifies terminal
      ensures terminal != null ==> terminal.fed == old(terminal.fed) + FieldWrites(FieldOf(option))
    {
      if option == Some("from") {
        SendTermData(terminal, FromToken);
      } else if option == Some("sub") {
        SendTermData(terminal, SubjectToken);
      }
    }

    /**
     * The folder and action part of start-up: fill the folder slots from
     * the buttons the layout provides (in table order), tie each present
     * folder button to this context and its macro, give each present action
     * button its key, and mark the Inbox button active when there is one.
     */
    method InitPanel(folderLookup: seq<Button?>, shortcutLookup: seq<Button?>)
      requires Valid() && |folderLookup| == NbFolders && |shortcutLookup| == |Shortcuts|
      requires DistinctButtons(folderLookup) && DistinctButtons(shortcutLookup)
      modifies folderButtons, NonNull(folderLookup)`ctx, NonNull(folderLookup)`clickMacro
      modifies NonNull(folderLookup)`folderActive, NonNull(shortcutLookup)`keyToSend
      ensures folderButtons[..] == folderLookup
      ensures forall i :: 0 <= i < NbFolders && folderLookup[i] != null ==>
                folderLookup[i].ctx == this && folderLookup[i].clickMacro == Some(Folders[i].keys)
      ensures forall i :: 0 <= i < |Shortcuts| && shortcutLookup[i] != null ==>
                shortcutLookup[i].keyToSend == Some(Shortcuts[i].keys)
      ensures folderLookup[0] != null ==>
                forall i :: 0 <= i < NbFolders && folderLookup[i] != null ==> folderLookup[i].folderActive == (i == 0)
      ensures folderLookup[0] == null ==>
                forall i :: 0 <= i < NbFolders && folderLookup[i] != null ==>
                  folderLookup[i].folderActive == old(folderLookup[i].folderActive)
    {
      BindFolders(folderLookup);
      BindShortcuts(shortcutLookup);
      assert FolderSet() == NonNull(folderLookup);
      if folderButtons[0] != null {
        UpdateActiveFolder(folderButtons[0], this);
        forall i | 0 <= i < NbFolders && folderLookup[i] != null
          ensures folderLookup[i].folderActive == (i == 0)
        {
          if i != 0 {
            assert folderLookup[i] != folderLookup[0];
          }
        }
      }
    }

    /** The folders loop of start-up: slot i gets the i-th button, which learns its context and macro. */
    method BindFolders(folderLookup: seq<Button?>)
      requires Valid() && |folderLookup| == NbFolders
      requires DistinctButtons(folderLookup)
      modifies folderButtons, NonNull(folderLookup)`ctx, NonNull(folderLookup)`clickMacro
      ensures folderButtons[..] == folderLookup
      ensures forall i :: 0 <= i < NbFolders && folderLookup[i] != null ==>
                folderLookup[i].ctx == this && folderLookup[i].clickMacro == Some(Folders[i].keys)
    {
      FolderTableFacts();
      for i := 0 to NbFolders
        invariant folderButtons[..i] == folderLookup[..i]
        invariant forall j :: 0 <= j < i && folderLookup[j] != null ==>
                    folderLookup[j].ctx == this && folderLookup[j].clickMacro == Some(Folders[j].keys)
      {
        var b := folderLookup[i];
        folderButtons[i] := b;
        if b != null {
          b.ctx := this;
          b.clickMacro := Some(Folders[i].keys);
        }
      }
      assert folderButtons[..] == folderButtons[..NbFolders];
    }

    /** The shortcuts loop of start-up: each present action button learns the key it sends. */
    method BindShortcuts(shortcutLookup: seq<Button?>)
      requires |shortcutLookup| == |Shortcuts|
      requires DistinctButtons(shortcutLookup)
      modifies NonNull(shortcutLookup)`keyToSend
      ensures forall i :: 0 <= i < |Shortcuts| && shortcutLookup[i] != null ==>
                shortcutLookup[i].keyToSend == Some(Shortcuts[i].keys)
    {
      for i := 0 to |Shortcuts|
        invariant forall j :: 0 <= j < i && shortcutLookup[j] != null ==> shortcutLookup[j].keyToSend == Some(Shortcuts[j].keys)
      {
        var b := shortcutLookup[i];
        if b != null {
          b.keyToSend := Some(Shortcuts[i].keys);
        }
      }
    }
  }

  /** The non-null entries of a sequence of buttons. */
  function NonNull(s: seq<Button?>): set<Button>
  {
    set i | 0 <= i < |s| && s[i] != null :: s[i] as Button
  }

  /** No button appears twice (the layout gives distinct identifiers distinct widgets). */
  predicate DistinctButtons(s: seq<Button?>)
  {
    forall i, j :: 0 <= i < j < |s| && s[i] != null ==> s[i] != s[j]
  }

  /** Feed a string to the terminal; a missing terminal receives nothing. */
  method SendTermData(terminal: Terminal?, data: string)
    modifies terminal
    ensures terminal != null ==> terminal.fed == old(terminal.fed) + [data]
  {
    if terminal != null {
      terminal.Feed(data);
    }
  }

  function AsSet(b: Button?): set<Button>
  {
    if b == null then {} else {b}
  }

  function GuiSet(g: Gui?): set<Gui>
  {
    if g == null then {} else {g}
  }

  /** The folder buttons whose style the indicator update may touch. */
  function FoldersOf(ctx: Gui?): set<Button>
    reads ctx, if ctx != null then {ctx.folderButtons} else {}
  {
    if ctx == null then {} else ctx.FolderSet()
  }

  /**
   * Move the "folder-active" indicator: clear it on every non-empty folder
   * slot, then put it on `activeButton` when there is one. Without a
   * context nothing changes.
   */
  method UpdateActiveFolder(activeButton: Button?, ctx: Gui?)
    modifies FoldersOf(ctx)`folderActive, AsSet(activeButton)`folderActive
    ensures ctx == null ==> activeButton == null || activeButton.folderActive == old(activeButton.folderActive)
    ensures ctx != null ==>
              forall i :: 0 <= i < ctx.folderButtons.Length && ctx.folderButtons[i] != null && ctx.folderButtons[i] != activeButton ==>
                !ctx.folderButtons[i].folderActive
    ensures ctx != null && activeButton != null ==> activeButton.folderActive
  {
    if ctx == null {
      return;
    }
    for i := 0 to ctx.folderButtons.Length
      invariant forall j :: 0 <= j < i && ctx.folderButtons[j] != null ==> !ctx.folderButtons[j].folderActive
    {
      var b := ctx.folderButtons[i];
      if b != null {
        b.folderActive := false;
      }
    }
    if activeButton != null {
      activeButton.folderActive := true;
    }
  }

  /** Whether a folder click has an effect: a context, a terminal and a macro. */
  predicate FolderClickApplies(btn: Button, macroKeys: Option<string>)
    reads btn, btn.ctx
  {
    btn.ctx != null && btn.ctx.terminal != null && macroKeys.Some?
  }

  /**
   * A folder button's click handler: feed its macro, move the active
   * indicator to it and give the terminal the focus; when the context,
   * the terminal or the macro is missing, nothing changes.
   */
  method OnFolderClicked(btn: Button, macroKeys: Option<string>)
    modifies GuiSet(btn.ctx)`focus, if btn.ctx != null then btn.ctx.terminal else null
    modifies FoldersOf(btn.ctx)`folderActive, btn`folderActive
    ensures FolderClickApplies(btn, macroKeys) ==>
              && btn.ctx.terminal.fed == old(btn.ctx.terminal.fed) + [macroKeys.value]
              && btn.folderActive
              && (forall i :: 0 <= i < btn.ctx.folderButtons.Length && btn.ctx.folderButtons[i] != null && btn.ctx.folderButtons[i] != btn ==>
                    !btn.ctx.folderButtons[i].folderActive)
              && btn.ctx.focus == TerminalFocus
    ensures !FolderClickApplies(btn, macroKeys) ==>
              && btn.folderActive == old(btn.folderActive)
              && (btn.ctx != null ==>
                    && btn.ctx.focus == old(btn.ctx.focus)
                    && (forall b :: b in FoldersOf(btn.ctx) ==> b.folderActive == old(b.folderActive))
                    && (btn.ctx.terminal != null ==> btn.ctx.terminal.fed == old(btn.ctx.terminal.fed)))
  {
    var ctx := btn.ctx;
    if ctx != null && ctx.terminal != null && macroKeys.Some? {
      SendTermData(ctx.terminal, macroKeys.value);
      UpdateActiveFolder(btn, ctx);
      ctx.GrabTerminalFocus();
    }
  }

  /**
   * An action button's click handler: feed the button's stored key and give
   * the terminal the focus; when the context, the terminal or the key is
   * missing, nothing changes.
   */
  method OnActionClicked(btn: Button, ctx: Gui?)
    modifies GuiSet(ctx)`focus, if ctx != null then ctx.terminal else null
    ensures ctx != null && ctx.terminal != null && btn.keyToSend.Some? ==>
              ctx.terminal.fed == old(ctx.terminal.fed) + [btn.keyToSend.value] && ctx.focus == TerminalFocus
    ensures !(ctx != null && ctx.terminal != null && btn.keyToSend.Some?) ==>
              ctx != null ==> ctx.focus == old(ctx.focus) && (ctx.terminal != null ==> ctx.terminal.fed == old(ctx.terminal.fed))
  {
    var key := btn.keyToSend;
    if ctx != null && ctx.terminal != null && key.Some? {
      SendTermData(ctx.terminal, key.value);
      ctx.GrabTerminalFocus();
    }
  }

  /**
   * Start-up with an Inbox and a Sent button: the Inbox is marked; a click
   * on Sent, then on Inbox, feeds "go" then "gi" and leaves only Inbox marked.
   */
  method FolderClickScenario() returns (activeAtStart: bool, fed: seq<string>, inboxActive: bool, sentActive: bool)
    ensures activeAtStart
    ensures fed == ["go", "gi"] && inboxActive && !sentActive
  {
    var terminal := new Terminal();
    var gui := new Gui(terminal);
    var inbox := new Button();
    var sent := new Button();
    var folders: seq<Button?> := [inbox, sent, null, null, null, null, null];
    var shortcuts: seq<Button?> := [null, null, null, null, null, null, null];
    assert DistinctButtons(folders) by {
      forall i, j | 0 <= i < j < |folders| && folders[i] != null ensures folders[i] != folders[j] {
        assert i <= 1;
      }
    }
    assert DistinctButtons(shortcuts);
    gui.InitPanel(folders, shortcuts);
    FolderTableFacts();
    assert folders[0] == inbox && folders[1] == sent;
    assert inbox.ctx == gui && sent.ctx == gui;
    assert inbox.clickMacro == Some("gi") && sent.clickMacro == Some("go");
    activeAtStart := inbox.folderActive;
    assert gui.folderButtons[..] == folders;
    assert FolderClickApplies(sent, sent.clickMacro);
    OnFolderClicked(sent, sent.clickMacro);
    assert terminal.fed == ["go"];
    assert FolderClickApplies(inbox, inbox.clickMacro);
    OnFolderClicked(inbox, inbox.clickMacro);
    assert terminal.fed == ["go", "gi"];
    assert gui.folderButtons[1] == sent;
    fed, inboxActive, sentActive := terminal.fed, inbox.folderActive, sent.folderActive;
  }

  /** Ctrl+Q in the main window feeds ESC ":q!" Enter and closes the window. */
  method QuitChordScenario() returns (consumed: bool, fed: seq<string>, closed: bool)
    ensures consumed && fed == ["\U{1B}:q!\n"] && closed
  {
    var terminal := new Terminal();
    var gui := new Gui(terminal);
    var ev := KeyEvent(KeyQ, ControlMask, Some("\U{11}"));
    assert IsQuitChord(ev);
    RouteQuitChord(true, ev);
    consumed := gui.OnKeyPress(ev);
    fed, closed := terminal.fed, gui.windowClosed;
  }

  /**
   * Typing "foo" in the focused search entry reaches the entry, not the
   * terminal; submitting it with field "from" and date "week" feeds five
   * writes and hands the focus back, after which a Down arrow pages.
   */
  method SearchScenario() returns (typedConsumed: bool, fed: seq<string>, entryText: string, downConsumed: bool)
    ensures !typedConsumed && entryText == ""
    ensures fed == ["\U{7}:exec vfolder-from-query\n", "date:7d.. ", "from:", "foo", "\n", " "]
    ensures downConsumed
  {
    var terminal := new Terminal();
    var gui := new Gui(terminal);
    gui.focus := SearchEntryFocus;
    RouteSearchFocused(true, KeyEvent(0x66, 0, Some("f")));
    typedConsumed := gui.OnKeyPress(KeyEvent(0x66, 0, Some("f")));
    gui.searchText, gui.fieldOption, gui.dateOption := "foo", Some("from"), Some("week");
    gui.OnSearchClicked();
    SearchFooFromWeek();
    entryText := gui.searchText;
    RouteArrows(KeyEvent(KeyDown, 0, None));
    downConsumed := gui.OnKeyPress(KeyEvent(KeyDown, 0, None));
    fed := terminal.fed;
  }
}
