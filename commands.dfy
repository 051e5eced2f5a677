/**
 * The fixed keystroke strings the shell sends to the mail client:
 * the quit chord, the folder-jump macros and the action-button keys,
 * with the two tables that bind them to the widget identifiers of the
 * layout description.
 */
module Commands {

  /** ESC (0x1B) cancels whatever is pending, then ":q!" and Enter quit at once. */
  const QuitKeys: string := "\U{1B}:q!\n"

  const MacroInbox: string := "gi"
  const MacroSent: string := "go"
  const MacroQuarantine: string := "gq"
  const MacroDraft: string := "gd"
  const MacroArchives: string := "ga"
  const MacroTrash: string := "gt"
  const MacroLocale: string := "gl"

  const KeyDelete: string := "d"
  const KeyNext: string := "j"
  const KeyPrevious: string := "k"
  const KeyWrite: string := "m"
  const KeyReply: string := "r"
  const KeyReplyAll: string := "g"
  const KeyEnter: string := "\n"

  /** Number of slots in the folder-button array. */
  const NbFolders: nat := 7

  /** A widget identifier and the keystrokes its button sends. */
  datatype Binding = Binding(id: string, keys: string)

  /** Folder buttons, in the order their slots are filled; slot 0 is the Inbox. */
  const Folders: seq<Binding> := [
    Binding("btn_inbox", MacroInbox), Binding("btn_sent", MacroSent),
    Binding("btn_locale", MacroLocale), Binding("btn_trash", MacroTrash),
    Binding("btn_draft", MacroDraft), Binding("btn_quarantine", MacroQuarantine),
    Binding("btn_archives", MacroArchives)
  ]

  /** Action buttons and the single key each one sends. */
  const Shortcuts: seq<Binding> := [
    Binding("btn_prev", KeyPrevious), Binding("btn_next", KeyNext),
    Binding("btn_enter", KeyEnter), Binding("btn_write", KeyWrite),
    Binding("btn_reply", KeyReply), Binding("btn_reply_all", KeyReplyAll),
    Binding("btn_del", KeyDelete)
  ]

  /** No two entries of a table share an identifier or a key sequence. */
  predicate Unambiguous(table: seq<Binding>)
  {
    forall i, j :: 0 <= i < j < |table| ==> table[i].id != table[j].id && table[i].keys != table[j].keys
  }

  /**
   * The folder table fills exactly the seven slots, starts with the Inbox
   * jump, and every folder has its own identifier and its own macro, so
   * two different folder buttons never send the same jump.
   */
  lemma FolderTableFacts()
    ensures |Folders| == NbFolders
    ensures Folders[0] == Binding("btn_inbox", "gi")
    ensures Unambiguous(Folders)
    ensures forall i :: 0 <= i < |Folders| ==> |Folders[i].keys| == 2 && Folders[i].keys[0] == 'g'
  {
  }

  /** Every action button sends one distinct key. */
  lemma ShortcutTableFacts()
    ensures |Shortcuts| == 7
    ensures Unambiguous(Shortcuts)
    ensures forall i :: 0 <= i < |Shortcuts| ==> |Shortcuts[i].keys| == 1
  {
  }
}
