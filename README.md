# gneomutt: the routing logic of a GTK shell around neomutt

gneomutt embeds a VTE terminal in a GTK window, runs neomutt inside it, and
drives neomutt by feeding it keystrokes: from a side panel of folder and action
buttons, from a search bar that builds a notmuch query, and from a window-level
key handler that remaps the arrow keys and catches Ctrl+Q. This project models
the decision logic of `gneomutt.c` with the widgets abstracted away:

- the terminal is an append-only log of the strings fed to the child
  (`Gneomutt.Terminal.fed`); a missing terminal is a null `Terminal?`, and a
  write to it goes nowhere;
- a button is an object holding the data the handlers read from it (its
  context, the macro its click handler was bound with, the key it sends) and
  whether it wears the `folder-active` style class;
- the application context (`Gneomutt.Gui`) holds the terminal, the fixed
  seven-slot array of possibly-null folder buttons, which widget has the focus,
  whether the window was closed, and the three search widgets' values.

Modules:

- `Options` (`options.dfy`): the nullable value `Option`.
- `Commands` (`commands.dfy`): the literal keystrokes, the quit keys, and the
  folder and shortcut tables.
- `KeyRouting` (`key_routing.dfy`): the arrow remap table and its first-match
  search, and `Route`, the pure decision of the key-press handler, with the
  properties of each branch.
- `SearchComposer` (`search_composer.dfy`): the pure serialiser from the
  search widgets to the ordered query writes, with its no-op rule, its write
  order and its injectivity.
- `Gneomutt` (`gneomutt.dfy`): the widget classes and the handlers as
  imperative methods. Each handler's contract ties the new terminal log, focus,
  window and style state to the pure functions above.

Behaviours of the code worth noting:

- There is no help-key remap in the key handler. A comment mentions F1, but no
  code handles it.
- The key handler's arrow remap and verbatim forwarding both need a terminal.
  Without one, an arrow key is declined like any other key. Ctrl+Q still closes
  the window.
- In the search, a NULL or unrecognised date option writes no date token. Such
  an option is not "any", so it never makes the search a no-op.
- In the search, a field option other than "from" or "sub" writes no prefix.
- The no-op search returns before the entry is cleared and before the focus
  moves.

## Model

| member | source | states |
|---|---|---|
| `Commands.FolderTableFacts` | gneomutt.c:343-347 | the folder table fills exactly the seven slots; slot 0 is btn_inbox with "gi"; no two folders share an identifier or a macro |
| `Commands.ShortcutTableFacts` | gneomutt.c:362-365 | the seven action buttons each send one distinct single key |
| `KeyRouting.LookupIsFirstMatch` | gneomutt.c:167-172 | the table search finds nothing exactly when no entry has the key, and otherwise yields the command of the earliest entry with that key |
| `KeyRouting.FindCommand` | gneomutt.c:164-172 | the scanning loop with its early break returns exactly the first-match command |
| `KeyRouting.ArrowMapLookup` | gneomutt.c:86-91 | the remap table maps Left to "k", Right to "j", Up to "-", Down to " ", and no other key |
| `KeyRouting.RouteSearchFocused` | gneomutt.c:157-160 | while the search entry has focus, no event is consumed, nothing is written and the window stays open |
| `KeyRouting.RouteArrows` | gneomutt.c:174-178 | with a terminal, each arrow key writes exactly its one mapped command and is consumed, whatever the modifiers: Ctrl+arrow is still remapped, not forwarded |
| `KeyRouting.RouteQuitChord` | gneomutt.c:180-184 | Ctrl+Q is consumed and closes the window, with or without a terminal; its one write, the quit keys, reaches the terminal only when there is one |
| `KeyRouting.RouteFallThrough` | gneomutt.c:186-199 | any other event is forwarded verbatim when there is a terminal and a text payload, and otherwise is declined with nothing written |
| `KeyRouting.RouteArrowWithoutTerminal` | gneomutt.c:174-199 | without a terminal an arrow key is not remapped and is declined |
| `KeyRouting.RouteEffects` | gneomutt.c:153-200 | for every input the outcome has at most one string to feed, and the event is consumed exactly when it has one; that string is fed only when there is a terminal; the window closes only on a consumed event; without a terminal the only consumed event is Ctrl+Q, which then feeds nothing |
| `SearchComposer.SearchNoOpExactly` | gneomutt.c:243-244 | a submit writes nothing exactly when the text is empty and the date option is "any"; a NULL date option does not count as "any" |
| `SearchComposer.SearchWriteOrder` | gneomutt.c:246-265 | a real search writes 3 to 5 strings: the invoke command first, then the date token (only for today, week, month), then the field prefix (only for from, sub), then the text, then the newline |
| `SearchComposer.SearchFooFromWeek` | gneomutt.c:246-265 | text "foo", field "from", date "week" give exactly five writes: invoke, "date:7d.. ", "from:", "foo", newline |
| `SearchComposer.SearchNullDateIsNotAny` | gneomutt.c:244-254 | with a NULL date option an empty text still runs a search with no date token |
| `SearchComposer.SerializeInjective` | gneomutt.c:249-265 | two different queries never give the same sequence of separate feed calls: the list of writes determines the query |
| `SearchComposer.WritesCollideOnTheWire` | gneomutt.c:247-265 | once the writes are joined on the one terminal stream, the boundaries are lost: text "from:foo" with no field sends the same bytes as text "foo" with field "from" |
| `Gneomutt.SendTermData` | gneomutt.c:94-97 | a write reaches the terminal log as one more entry, and a missing terminal receives nothing |
| `Gneomutt.UpdateActiveFolder` | gneomutt.c:99-114 | with a context, no non-empty folder slot other than the given button wears the active style afterwards, and the given button does; without a context nothing changes |
| `Gneomutt.OnFolderClicked` | gneomutt.c:207-219 | with a context, a terminal and a macro, the click feeds the macro, makes the clicked button the only active folder and gives the terminal the focus; otherwise the log, the styles and the focus are unchanged |
| `Gneomutt.OnActionClicked` | gneomutt.c:221-233 | with a context, a terminal and a stored key, the click feeds that key and focuses the terminal; otherwise nothing changes |
| `Gneomutt.Gui.constructor` | gneomutt.c:405-408 | a zeroed context: all seven folder slots empty, window open |
| `Gneomutt.Gui.GrabTerminalFocus` | gneomutt.c:189-192 | the terminal takes the focus when there is one; otherwise the focus stays where it was |
| `Gneomutt.Gui.OnStopClicked` | gneomutt.c:139-151 | the quit keys are fed (when there is a terminal) and the window is closed unconditionally |
| `Gneomutt.Gui.OnKeyPress` | gneomutt.c:153-200 | the handler's result, terminal writes, window state and focus are exactly those of the routing decision `Route` for the event and the focus before it |
| `Gneomutt.Gui.OnSearchClicked` | gneomutt.c:235-270 | the terminal receives exactly the composed query writes; a real search then clears the entry and focuses the terminal; a no-op changes nothing |
| `Gneomutt.Gui.SendDateToken` | gneomutt.c:250-254 | only the date options today, week and month feed a token, and it is their date filter |
| `Gneomutt.Gui.SendFieldPrefix` | gneomutt.c:256-261 | only the field options from and sub feed a prefix, "from:" or "subject:" |
| `Gneomutt.Gui.InitPanel` | gneomutt.c:342-377 | start-up fills the folder slots in table order and binds each present button to the context and its macro; each present action button gets its key; the Inbox button, when present, is the only active folder |
| `Gneomutt.Gui.BindFolders` | gneomutt.c:349-359 | slot i holds the i-th looked-up button, and each present one carries the context and the i-th folder macro |
| `Gneomutt.Gui.BindShortcuts` | gneomutt.c:366-372 | each present action button carries the key of its table entry |
| `Gneomutt.FolderClickScenario` | gneomutt.c:207-219 | after start-up Inbox is active; clicking Sent then Inbox feeds "go" then "gi" and leaves only Inbox active |
| `Gneomutt.QuitChordScenario` | gneomutt.c:181-184 | Ctrl+Q in the window is consumed, feeds ESC ":q!" Enter and closes the window |
| `Gneomutt.SearchScenario` | gneomutt.c:235-270 | a key typed while the search entry has focus is not consumed; submitting "foo"/from/week feeds the five query writes and clears the entry; a following Down arrow feeds " " |

## Left out

- GTK and VTE set-up: the CSS provider, the resource and icon loading, the
  builder lookups, showing and maximising the window, the final focus grab
  on the terminal at the end of start-up, and `main` with `prctl`.
  The buttons that the builder finds are parameters of `InitPanel`.
- Signal wiring: the model calls the handlers directly. The data a signal
  would pass is held in the button fields `ctx`, `clickMacro` and `keyToSend`.
  The loop that connects the help, stop and sync buttons is not modelled.
- Spawning neomutt and the `child-exited` handler. Both are process and
  event-loop concerns.
- `on_refresh_clicked` runs the external sync command without waiting for it.
- The help dialog and its text are presentation only.
- Focus is a three-valued flag: search entry, terminal or elsewhere. Toolkit
  focus rules beyond what the handlers set are not modelled.
- The window close is a flag. The teardown of the terminal and the child that
  it triggers is not modelled.
- The search entry's text is a `string`. GTK's entry getter returns NULL only
  when the search entry is missing from the layout (its lookup is not
  checked). In that configuration the NULL-text test is live, and a search
  with a date other than "any" feeds no text. `SearchNoOpExactly` and
  `Gneomutt.Gui.OnSearchClicked` do not model that configuration.
- Gneomutt.Gui.OnSearchClicked: `on_search_clicked` feeds the terminal
  without a NULL check. The model drops those writes when there is no
  terminal, because the VTE feed call ignores a NULL terminal. VTE is not part
  of this model.
- Key symbols are unbounded naturals and the modifier state is a 32-bit
  vector. The GDK values used are Left 0xff51, Up 0xff52, Right 0xff53,
  Down 0xff54, q 0x71, and the Control mask 1 << 2.
- Strings are sequences of characters, not bytes. Every literal the program
  sends is ASCII.
- The `DEBUG_LOG` macro is defined but never used.
