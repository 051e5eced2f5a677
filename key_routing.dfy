/**
 * The window's key-press router: the arrow-key remap table, its first-match
 * lookup, and the priority-ordered decision taken on every key event.
 */
module KeyRouting {

  import opened Options
  import Commands

  /** A GDK key symbol (an unsigned 32-bit value in GDK). */
  type KeyVal = nat

  // GDK's key symbol values for the keys the router inspects.
  const KeyLeft: KeyVal := 0xff51
  const KeyUp: KeyVal := 0xff52
  const KeyRight: KeyVal := 0xff53
  const KeyDown: KeyVal := 0xff54
  const KeyQ: KeyVal := 0x71

  /** GDK's modifier bit for a held Control key (1 << 2). */
  const ControlMask: bv32 := 4

  /** What the router reads from a key event: the key, the modifier state and the text payload (NULL for none). */
  datatype KeyEvent = KeyEvent(keyval: KeyVal, state: bv32, text: Option<string>)

  predicate ControlHeld(ev: KeyEvent)
  {
    ev.state & ControlMask != 0
  }

  /** The Ctrl+Q chord: Control held on the lower-case q key. */
  predicate IsQuitChord(ev: KeyEvent)
  {
    ControlHeld(ev) && ev.keyval == KeyQ
  }

  datatype KeyMapping = KeyMapping(keyval: KeyVal, command: string)

  /** Arrow keys remapped to single-character mail-client commands. */
  const ArrowMap: seq<KeyMapping> := [
    KeyMapping(KeyLeft, "k"),
    KeyMapping(KeyRight, "j"),
    KeyMapping(KeyUp, "-"),
    KeyMapping(KeyDown, " ")
  ]

  predicate IsArrow(k: KeyVal)
  {
    k == KeyLeft || k == KeyRight || k == KeyUp || k == KeyDown
  }

  /** The command of the first entry of `table` whose key is `k`, if any. */
  function Lookup(table: seq<KeyMapping>, k: KeyVal): Option<string>
  {
    if table == [] then None
    else if table[0].keyval == k then Some(table[0].command)
    else Lookup(table[1..], k)
  }

  /** Lookup finds nothing exactly when no entry has the key, and otherwise returns the command of the earliest entry that has it. */
  lemma {:induction false} LookupIsFirstMatch(table: seq<KeyMapping>, k: KeyVal)
    ensures Lookup(table, k) == None <==> forall i :: 0 <= i < |table| ==> table[i].keyval != k
    ensures forall i :: 0 <= i < |table| && table[i].keyval == k && (forall j :: 0 <= j < i ==> table[j].keyval != k) ==>
              Lookup(table, k) == Some(table[i].command)
  {
    if table != [] {
      LookupIsFirstMatch(table[1..], k);
      forall i | 0 <= i < |table| && table[i].keyval == k && (forall j :: 0 <= j < i ==> table[j].keyval != k)
        ensures Lookup(table, k) == Some(table[i].command)
      {
        if i > 0 {
          assert table[1..][i - 1] == table[i];
          forall j | 0 <= j < i - 1 ensures table[1..][j].keyval != k {
            assert table[1..][j] == table[j + 1];
          }
        }
      }
      if forall i :: 0 <= i < |table| ==> table[i].keyval != k {
        forall i | 0 <= i < |table| - 1 ensures table[1..][i].keyval != k {
          assert table[1..][i] == table[i + 1];
        }
      }
    }
  }

  /** The arrow table maps exactly the four arrow keys, Left to "k", Right to "j", Up to "-" and Down to " ". */
  lemma ArrowMapLookup(k: KeyVal)
    ensures Lookup(ArrowMap, k) ==
      if k == KeyLeft then Some("k")
      else if k == KeyRight then Some("j")
      else if k == KeyUp then Some("-")
      else if k == KeyDown then Some(" ")
      else None
  {
    var rest := ArrowMap[1..];
    assert rest == [KeyMapping(KeyRight, "j"), KeyMapping(KeyUp, "-"), KeyMapping(KeyDown, " ")];
    assert rest[1..] == [KeyMapping(KeyUp, "-"), KeyMapping(KeyDown, " ")];
    assert rest[1..][1..] == [KeyMapping(KeyDown, " ")];
    assert rest[1..][1..][1..] == [];
    assert Lookup(rest[1..][1..], k) == if k == KeyDown then Some(" ") else None;
    assert Lookup(rest[1..], k) == if k == KeyUp then Some("-") else Lookup(rest[1..][1..], k);
    assert Lookup(rest, k) == if k == KeyRight then Some("j") else Lookup(rest[1..], k);
  }

  /**
   * The search over the remap table: scan the entries in order and stop
   * at the first whose key matches.
   */
  method FindCommand(table: seq<KeyMapping>, k: KeyVal) returns (cmd: Option<string>)
    ensures cmd == Lookup(table, k)
  {
    cmd := None;
    var i := 0;
    while i < |table|
      invariant 0 <= i <= |table|
      invariant Lookup(table[i..], k) == Lookup(table, k)
      invariant cmd == None
    {
      if table[i].keyval == k {
        cmd := Some(table[i].command);
        break;
      }
      assert table[i..][1..] == table[i + 1..];
      i := i + 1;
    }
  }

  /** What the router decides to do with one key event. */
  datatype KeyOutcome =
    | LeftToSearchEntry        // the search entry has focus: let it edit
    | Remapped(command: string) // an arrow key turned into a mail-client command
    | QuitRequested            // Ctrl+Q: run the quit sequence
    | Forwarded(text: string)  // the event's own text sent on verbatim
    | Declined                 // nothing to do: default toolkit handling
  {
    /** Whether the handler reports the event as handled. */
    predicate Consumed()
    {
      Remapped? || QuitRequested? || Forwarded?
    }

    /** The strings the outcome feeds to the terminal, when there is one. */
    function Writes(): seq<string>
    {
      match this
      case Remapped(c) => [c]
      case QuitRequested => [Commands.QuitKeys]
      case Forwarded(t) => [t]
      case _ => []
    }

    predicate ClosesWindow()
    {
      QuitRequested?
    }
  }

  /**
   * The router's decision, checks taken in priority order: search focus,
   * arrow remap (only with a terminal), the quit chord, verbatim forwarding
   * (only with a terminal and a text payload), else decline.
   */
  function Route(searchFocused: bool, terminalPresent: bool, ev: KeyEvent): KeyOutcome
  {
    if searchFocused then LeftToSearchEntry
    else
      var cmd := Lookup(ArrowMap, ev.keyval);
      if cmd.Some? && terminalPresent then Remapped(cmd.value)
      else if IsQuitChord(ev) then QuitRequested
      else if terminalPresent && ev.text.Some? then Forwarded(ev.text.value)
      else Declined
  }

  /** With the search entry focused, no event is consumed and nothing is written or closed. */
  lemma RouteSearchFocused(terminalPresent: bool, ev: KeyEvent)
    ensures var o := Route(true, terminalPresent, ev);
            !o.Consumed() && o.Writes() == [] && !o.ClosesWindow()
  {
  }

  /**
   * With a terminal, the four arrow keys write exactly their one-character
   * command and are consumed, whatever the modifiers (so Ctrl does not turn
   * an arrow into anything else) and whatever the text payload.
   */
  lemma RouteArrows(ev: KeyEvent)
    requires IsArrow(ev.keyval)
    ensures var o := Route(false, true, ev);
            && o.Consumed() && !o.ClosesWindow()
            && o.Writes() == [if ev.keyval == KeyLeft then "k"
                              else if ev.keyval == KeyRight then "j"
                              else if ev.keyval == KeyUp then "-"
                              else " "]
  {
    ArrowMapLookup(ev.keyval);
  }

  /**
   * Ctrl+Q is consumed and closes the window, with or without a terminal;
   * its one write, the quit keys, reaches the terminal only when there is one.
   */
  lemma RouteQuitChord(terminalPresent: bool, ev: KeyEvent)
    requires IsQuitChord(ev)
    ensures var o := Route(false, terminalPresent, ev);
            o == QuitRequested && o.Consumed() && o.Writes() == [Commands.QuitKeys] && o.ClosesWindow()
  {
    ArrowMapLookup(ev.keyval);
  }

  /**
   * Any other event is forwarded verbatim when there is a terminal and a
   * text payload, and is declined (not consumed, nothing written) otherwise.
   */
  lemma RouteFallThrough(terminalPresent: bool, ev: KeyEvent)
    requires !IsQuitChord(ev)
    requires !(IsArrow(ev.keyval) && terminalPresent)
    ensures var o := Route(false, terminalPresent, ev);
            && (terminalPresent && ev.text.Some? ==> o == Forwarded(ev.text.value) && o.Consumed() && o.Writes() == [ev.text.value])
            && (!terminalPresent || ev.text.None? ==> o == Declined && !o.Consumed() && o.Writes() == [])
  {
    ArrowMapLookup(ev.keyval);
  }

  /** Without a terminal an arrow key is not remapped: it is declined like any key but the quit chord. */
  lemma RouteArrowWithoutTerminal(ev: KeyEvent)
    requires IsArrow(ev.keyval)
    ensures Route(false, false, ev) == Declined
  {
  }

  /**
   * Whatever the inputs, the outcome has at most one string to feed, the
   * event is consumed exactly when it has one (it is fed only when there
   * is a terminal), and the window closes only on a consumed event.
   * Without a terminal the only consumed event is the quit chord, which
   * then writes nothing at all.
   */
  lemma RouteEffects(searchFocused: bool, terminalPresent: bool, ev: KeyEvent)
    ensures var o := Route(searchFocused, terminalPresent, ev);
            && |o.Writes()| <= 1
            && (o.Consumed() <==> |o.Writes()| == 1)
            && (o.ClosesWindow() ==> o.Consumed())
            && (o.Consumed() && !terminalPresent ==> o == QuitRequested && IsQuitChord(ev))
  {
  }
}
