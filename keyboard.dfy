/** The global key-down listener: it ignores keys typed into text fields,
    finds the first table entry whose key and modifiers match, and runs that
    entry's handler when the entry is enabled and a handler is registered. */
module KeyboardShortcuts {
  import opened Base
  import opened Shortcuts

  /** The element the event is aimed at. */
  datatype Target = Target(tagName: string, isContentEditable: bool)

  datatype KeyEvent = KeyEvent(key: string, metaKey: bool, ctrlKey: bool, shiftKey: bool, altKey: bool, target: Target)

  /** What a key press does: the handler that ran (the default action and
      propagation are then stopped) and the description announced. */
  datatype Effect = Effect(ran: Option<ShortcutId>, prevented: bool, announced: Option<string>)

  const NoEffect := Effect(None, false, None)

  /** The user is typing in a text field. */
  predicate Typing(t: Target) {
    t.tagName == "INPUT" || t.tagName == "TEXTAREA" || t.isContentEditable
  }

  /** The command modifier: either meta or control when required, neither
      otherwise. */
  predicate MetaMatch(m: Modifiers, e: KeyEvent) {
    if m.meta then e.metaKey || e.ctrlKey else !e.metaKey && !e.ctrlKey
  }

  predicate Matches(sc: Shortcut, e: KeyEvent) {
    MetaMatch(sc.modifiers, e)
    && (sc.modifiers.shift <==> e.shiftKey)
    && (sc.modifiers.alt <==> e.altKey)
    && Lower(e.key) == Lower(sc.key)
  }

  /** The first entry from `k` on that matches, or -1. */
  function FirstMatchFrom(table: seq<Shortcut>, e: KeyEvent, k: nat): (r: int)
    requires k <= |table|
    ensures r == -1 || k <= r < |table|
    ensures r == -1 <==> forall j :: k <= j < |table| ==> !Matches(table[j], e)
    ensures r != -1 ==> Matches(table[r], e) && forall j :: k <= j < r ==> !Matches(table[j], e)
    decreases |table| - k
  {
    if k == |table| then -1
    else if Matches(table[k], e) then k
    else FirstMatchFrom(table, e, k + 1)
  }

  function FirstMatch(table: seq<Shortcut>, e: KeyEvent): int {
    FirstMatchFrom(table, e, 0)
  }

  /** What the listener does for an event, from the table, the application
      state and the identifiers that have a handler. */
  function Dispatch(table: seq<Shortcut>, e: KeyEvent, s: AppState, handlers: set<ShortcutId>): Effect {
    if Typing(e.target) then NoEffect
    else
      var i := FirstMatch(table, e);
      if i == -1 || !Enabled(table[i].id, s) || table[i].id !in handlers then NoEffect
      else Effect(Some(table[i].id), true, Some(table[i].description))
  }

  /** `handleKeyDown` over the shortcut table `table`, with the listener
      attached only while `enabled`. */
  method HandleKeyDown(enabled: bool, table: seq<Shortcut>, e: KeyEvent, s: AppState, handlers: set<ShortcutId>)
    returns (effect: Effect)
    ensures effect == (if enabled then Dispatch(table, e, s, handlers) else NoEffect)
  {
    effect := NoEffect;
    if !enabled {
      return;
    }
    if e.target.tagName == "INPUT" || e.target.tagName == "TEXTAREA" || e.target.isContentEditable {
      return;
    }
    var i := 0;
    while i < |table|
      invariant 0 <= i <= |table|
      invariant FirstMatchFrom(table, e, i) == FirstMatch(table, e)
      invariant effect == NoEffect
    {
      var sc := table[i];
      var metaMatch := if sc.modifiers.meta then e.metaKey || e.ctrlKey else !e.metaKey && !e.ctrlKey;
      var shiftMatch := if sc.modifiers.shift then e.shiftKey else !e.shiftKey;
      var altMatch := if sc.modifiers.alt then e.altKey else !e.altKey;
      var keyMatch := Lower(e.key) == Lower(sc.key);
      if metaMatch && shiftMatch && altMatch && keyMatch {
        if !Enabled(sc.id, s) {
          return;
        }
        if sc.id in handlers {
          effect := Effect(Some(sc.id), true, Some(sc.description));
        }
        break;
      }
      i := i + 1;
    }
  }

  /** A handler runs exactly when the entry for it matches, is enabled and
      has a handler: the first match is the only match. */
  lemma DispatchRuns(isMac: bool, e: KeyEvent, s: AppState, handlers: set<ShortcutId>, id: ShortcutId)
    ensures Dispatch(Table(isMac), e, s, handlers).ran == Some(id) <==>
      !Typing(e.target) && Matches(Entry(isMac, id), e) && Enabled(id, s) && id in handlers
  {
    var t := Table(isMac);
    TableIdsOnce(isMac);
    var i := FirstMatch(t, e);
    if Matches(Entry(isMac, id), e) && i != Position(id) {
      assert i != -1;
      UnambiguousMatch(isMac, e, t[i].id, id);
    }
  }

  /** No key press matches two entries. */
  lemma UnambiguousMatch(isMac: bool, e: KeyEvent, a: ShortcutId, b: ShortcutId)
    requires Matches(Entry(isMac, a), e) && Matches(Entry(isMac, b), e)
    ensures a == b
  {
    if a != b {
      TableKeysDistinct(isMac, a, b);
    }
  }

  /** Whatever runs, the default action is stopped exactly then, and the
      announcement is the entry's description. */
  lemma DispatchEffect(isMac: bool, e: KeyEvent, s: AppState, handlers: set<ShortcutId>)
    ensures var d := Dispatch(Table(isMac), e, s, handlers);
      (d.prevented <==> d.ran.Some?)
      && (d.ran.Some? ==> d.announced == Some(Entry(isMac, d.ran.value).description))
      && (d.ran.None? ==> d.announced.None?)
  {
    TableIdsOnce(isMac);
  }

  /** Keys typed into a text field do nothing. */
  lemma TypingDoesNothing(table: seq<Shortcut>, e: KeyEvent, s: AppState, handlers: set<ShortcutId>)
    requires Typing(e.target)
    ensures Dispatch(table, e, s, handlers) == NoEffect
  {
  }

  /** Control-S or Command-S downloads when an output is ready, whether or
      not caps lock turns the key into `S`. */
  lemma SaveKey(isMac: bool, key: string, meta: bool, s: AppState, handlers: set<ShortcutId>)
    requires key == "s" || key == "S"
    requires !s.processing && s.hasOutput && Download in handlers
    ensures Dispatch(Table(isMac), KeyEvent(key, meta, !meta, false, false, Target("BODY", false)), s, handlers).ran
      == Some(Download)
  {
    var e := KeyEvent(key, meta, !meta, false, false, Target("BODY", false));
    assert Lower(key) == "s";
    EntryKeyFolded(isMac, Download);
    DispatchRuns(isMac, e, s, handlers, Download);
  }

  /** Control-Shift-S matches nothing: shift must match exactly. */
  lemma ShiftedSaveKey(isMac: bool, s: AppState, handlers: set<ShortcutId>)
    ensures Dispatch(Table(isMac), KeyEvent("S", false, true, true, false, Target("BODY", false)), s, handlers) == NoEffect
  {
    var e := KeyEvent("S", false, true, true, false, Target("BODY", false));
    assert Lower(e.key) == "s";
    forall id ensures !Matches(Entry(isMac, id), e) {
      EntryKeyFolded(isMac, id);
      if id != Download && Matches(Entry(isMac, id), e) {
        TableKeysDistinct(isMac, id, Download);
      }
    }
    TableIdsOnce(isMac);
    assert FirstMatch(Table(isMac), e) == -1;
  }
}
