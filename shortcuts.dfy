/** The keyboard-shortcut table: which key and modifiers trigger which
    action, the label shown for it, and the state in which it is enabled. */
module Shortcuts {
  import opened Base

  datatype ShortcutId = Download | Copy | Reset | Reprocess | Upload | Help

  /** The facts about the application the enablement rules read. */
  datatype AppState = AppState(processing: bool, hasOutput: bool, hasInput: bool, hasCachedImage: bool)

  /** A modifier left out of an entry's `modifiers` is `false`. */
  datatype Modifiers = Modifiers(meta: bool, shift: bool, alt: bool)

  /** A table entry; `title` is the entry's `label`. */
  datatype Shortcut = Shortcut(id: ShortcutId, key: string, modifiers: Modifiers,
                               title: string, shortLabel: string, description: string)

  /** The identifier as JavaScript spells it. */
  function IdName(id: ShortcutId): string {
    match id
    case Download => "download"
    case Copy => "copy"
    case Reset => "reset"
    case Reprocess => "reprocess"
    case Upload => "upload"
    case Help => "help"
  }

  /** The spelling names each identifier apart. */
  lemma IdNameInjective(a: ShortcutId, b: ShortcutId)
    requires IdName(a) == IdName(b)
    ensures a == b
  {
    match a
    case Download => assert IdName(b)[0] == 'd';
    case Copy => assert IdName(b)[0] == 'c';
    case Reset =>
      assert IdName(b)[0] == 'r' && IdName(b)[2] == 's';
    case Reprocess =>
      assert IdName(b)[0] == 'r' && IdName(b)[2] == 'p';
    case Upload => assert IdName(b)[0] == 'u';
    case Help => assert IdName(b)[0] == 'h';
  }

  /** `modKey`: the command sign on Apple platforms, else `Ctrl`. */
  function ModKey(isMac: bool): string {
    if isMac then "⌘" else "Ctrl"
  }

  /** The entry of `shortcuts` for one identifier. */
  function Entry(isMac: bool, id: ShortcutId): (r: Shortcut)
    ensures r.id == id
  {
    var m := ModKey(isMac);
    match id
    case Download =>
      Shortcut(Download, "s", Modifiers(true, false, false), "Download", m + "+S",
               "Download the processed image")
    case Copy =>
      Shortcut(Copy, "c", Modifiers(true, true, false), "Copy to Clipboard", m + "+Shift+C",
               "Copy result image to clipboard")
    case Reset =>
      Shortcut(Reset, "Escape", Modifiers(false, false, false), "Reset", "Esc",
               "Clear current image and reset")
    case Reprocess =>
      Shortcut(Reprocess, "Enter", Modifiers(true, false, false), "Reprocess", m + "+Enter",
               "Reprocess the current image with new settings")
    case Upload =>
      Shortcut(Upload, "o", Modifiers(true, false, false), "Upload Image", m + "+O",
               "Open file picker to upload a new image")
    case Help =>
      Shortcut(Help, "?", Modifiers(false, true, false), "Keyboard Shortcuts", "?",
               "Show keyboard shortcuts help")
  }

  /** `shortcuts`, in table order. */
  function Table(isMac: bool): seq<Shortcut> {
    [Entry(isMac, Download), Entry(isMac, Copy), Entry(isMac, Reset),
     Entry(isMac, Reprocess), Entry(isMac, Upload), Entry(isMac, Help)]
  }

  /** The entries' `enabledWhen` predicates. */
  predicate Enabled(id: ShortcutId, s: AppState) {
    match id
    case Download => !s.processing && s.hasOutput
    case Copy => !s.processing && s.hasOutput
    case Reset => !s.processing && (s.hasInput || s.hasOutput)
    case Reprocess => !s.processing && s.hasCachedImage && s.hasOutput
    case Upload => !s.processing
    case Help => true
  }

  /** The position of an identifier's entry in the table. */
  function Position(id: ShortcutId): nat {
    match id
    case Download => 0
    case Copy => 1
    case Reset => 2
    case Reprocess => 3
    case Upload => 4
    case Help => 5
  }

  /** Every identifier has exactly one entry, at the position of its
      declaration. */
  lemma TableIdsOnce(isMac: bool)
    ensures |Table(isMac)| == 6
    ensures forall id :: Position(id) < 6 && Table(isMac)[Position(id)] == Entry(isMac, id)
    ensures forall i :: 0 <= i < |Table(isMac)| ==> Position(Table(isMac)[i].id) == i
  {
  }

  /** Hence no identifier appears twice. */
  lemma TableIdsDistinct(isMac: bool, i: nat, j: nat)
    requires i < j < |Table(isMac)|
    ensures Table(isMac)[i].id != Table(isMac)[j].id
  {
    TableIdsOnce(isMac);
  }

  /** An entry's key as it compares: lower-cased. */
  function FoldedKey(id: ShortcutId): string {
    match id
    case Download => "s"
    case Copy => "c"
    case Reset => "escape"
    case Reprocess => "enter"
    case Upload => "o"
    case Help => "?"
  }

  lemma EntryKeyFolded(isMac: bool, id: ShortcutId)
    ensures Lower(Entry(isMac, id).key) == FoldedKey(id)
  {
    var k := Entry(isMac, id).key;
    assert |Lower(k)| == |FoldedKey(id)|;
    forall i | 0 <= i < |k| ensures Lower(k)[i] == FoldedKey(id)[i] {
      match id
      case Download =>
      case Copy =>
      case Reset =>
      case Reprocess =>
      case Upload =>
      case Help =>
    }
  }

  /** No two entries' keys agree up to case, so no key press can match two
      entries: which one matches first does not depend on the order. */
  lemma TableKeysDistinct(isMac: bool, a: ShortcutId, b: ShortcutId)
    requires a != b
    ensures Lower(Entry(isMac, a).key) != Lower(Entry(isMac, b).key)
  {
    EntryKeyFolded(isMac, a);
    EntryKeyFolded(isMac, b);
  }

  /** While an image is processing only the help shortcut is enabled. */
  lemma ProcessingOnlyHelp(id: ShortcutId, s: AppState)
    requires s.processing
    ensures Enabled(id, s) <==> id == Help
  {
  }

  /** When reprocessing is enabled, so are download, copy, reset and upload. */
  lemma ReprocessImpliesOthers(s: AppState)
    requires Enabled(Reprocess, s)
    ensures Enabled(Download, s) && Enabled(Copy, s) && Enabled(Reset, s) && Enabled(Upload, s)
  {
  }

  /** The table lookup, as the index of the first entry
      with that identifier, or -1. */
  function Find(table: seq<Shortcut>, id: string): (r: int)
    ensures -1 <= r < |table|
    ensures r == -1 <==> forall i :: 0 <= i < |table| ==> IdName(table[i].id) != id
    ensures r >= 0 ==> IdName(table[r].id) == id && forall j :: 0 <= j < r ==> IdName(table[j].id) != id
    decreases |table|
  {
    if table == [] then -1
    else if IdName(table[0].id) == id then 0
    else
      var r := Find(table[1..], id);
      if r == -1 then -1 else r + 1
  }

  /** `getShortcutLabel`: the entry's short label, or the empty string for an
      unknown identifier. */
  function ShortcutLabel(isMac: bool, id: string): string {
    var i := Find(Table(isMac), id);
    if i >= 0 then Table(isMac)[i].shortLabel else ""
  }

  /** An unknown identifier has the empty label. */
  lemma ShortcutLabelUnknown(isMac: bool, id: string)
    requires forall k :: IdName(k) != id
    ensures ShortcutLabel(isMac, id) == ""
  {
  }

  /** The label for a known identifier is its entry's short label. */
  lemma ShortcutLabelKnown(isMac: bool, id: ShortcutId)
    ensures ShortcutLabel(isMac, IdName(id)) == Entry(isMac, id).shortLabel
  {
    TableIdsOnce(isMac);
    var t := Table(isMac);
    var k := Find(t, IdName(id));
    assert IdName(t[Position(id)].id) == IdName(id);
    IdNameInjective(t[k].id, id);
  }

  /** The labels shown: the modifier sign, then the key. */
  lemma Labels(isMac: bool)
    ensures ShortcutLabel(isMac, IdName(Download)) == ModKey(isMac) + "+S"
    ensures ShortcutLabel(isMac, IdName(Copy)) == ModKey(isMac) + "+Shift+C"
    ensures ShortcutLabel(isMac, IdName(Reset)) == "Esc"
    ensures ShortcutLabel(isMac, IdName(Reprocess)) == ModKey(isMac) + "+Enter"
    ensures ShortcutLabel(isMac, IdName(Upload)) == ModKey(isMac) + "+O"
    ensures ShortcutLabel(isMac, IdName(Help)) == "?"
  {
    ShortcutLabelKnown(isMac, Download);
    ShortcutLabelKnown(isMac, Copy);
    ShortcutLabelKnown(isMac, Reset);
    ShortcutLabelKnown(isMac, Reprocess);
    ShortcutLabelKnown(isMac, Upload);
    ShortcutLabelKnown(isMac, Help);
  }
}
