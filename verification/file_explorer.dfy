/** The file explorer: a two-mode (Regular / Drive) keyboard state machine
    editing a fixed-size query buffer, and the per-frame update that filters
    a directory listing by the query, moves the selection, opens entries and
    applies the reset rules.

    The two query buffers are allocated once; "current" and "stored" are
    views that swap between them, so the model keeps both buffers and the
    index of the one currently edited. The directory listing, the modifier
    keys and the helpers whose bodies are not part of this model
    (`str_find_first`, `Wrap`, `U_FixFilepath`) are inputs. */
module FileExplorer {
  import opened Common

  const INPUT_PRESS: int := 1

  const KEY_A: u8 := 65
  const KEY_Z: u8 := 90
  const KEY_D: u8 := 68
  /** Distance from an upper-case to a lower-case ASCII letter. */
  const LOWER_CASE_OFFSET: u8 := 32
  const UNDERSCORE: u8 := 95
  const COLON: u8 := 58
  const SEMICOLON: u8 := 59
  const SLASH: u8 := 47
  const DOT: u8 := 46

  datatype Mode = Regular | Drive

  /** The platform key codes the state machine compares against. */
  datatype KeyCodes = KeyCodes(enter: u8, escape: u8, backspace: u8, period: u8,
                               minus: u8, apostrophe: u8, semicolon: u8)

  datatype Modifiers = Modifiers(shift: bool, control: bool)

  predicate IsLetter(key: u8) {
    KEY_A <= key <= KEY_Z
  }

  /** The special keys have distinct codes, none of them a letter. */
  predicate WellFormedCodes(kc: KeyCodes) {
    && !IsLetter(kc.enter) && !IsLetter(kc.escape) && !IsLetter(kc.backspace) && !IsLetter(kc.period)
    && !IsLetter(kc.minus) && !IsLetter(kc.apostrophe) && !IsLetter(kc.semicolon)
    && kc.enter != kc.escape && kc.enter != kc.backspace && kc.enter != kc.period
    && kc.enter != kc.minus && kc.enter != kc.apostrophe && kc.enter != kc.semicolon
    && kc.escape != kc.backspace && kc.escape != kc.period && kc.escape != kc.minus
    && kc.escape != kc.apostrophe && kc.escape != kc.semicolon
    && kc.backspace != kc.period && kc.backspace != kc.minus && kc.backspace != kc.apostrophe
    && kc.backspace != kc.semicolon
    && kc.period != kc.minus && kc.period != kc.apostrophe && kc.period != kc.semicolon
    && kc.minus != kc.apostrophe && kc.minus != kc.semicolon
    && kc.apostrophe != kc.semicolon
  }

  /** The current folder: bytes the explorer owns, or a view of the first
      `size` bytes of one of the two query buffers. */
  datatype PathRef = Owned(bytes: Str) | QueryView(buffer: nat, size: nat)

  datatype Explorer = Explorer(
    selectedIndex: int,
    latestCount: nat,
    filepath: PathRef,
    mode: Mode,
    buffers: seq<Str>,
    current: nat,
    currentQueryIdx: int,
    storedQueryIdx: int,
    inited: bool,
    swappedToOtherMode: bool)

  /** Two equally sized buffers (`PATH_MAX` bytes each), both indices within
      them, and a path view that stays inside a buffer. */
  predicate Valid(e: Explorer) {
    && |e.buffers| == 2
    && |e.buffers[0]| == |e.buffers[1]|
    && e.current <= 1
    && 0 <= e.currentQueryIdx <= |e.buffers[0]|
    && 0 <= e.storedQueryIdx <= |e.buffers[0]|
    && (e.filepath.QueryView? ==> e.filepath.buffer <= 1 && e.filepath.size <= |e.buffers[0]|)
  }

  /** `PATH_MAX`: the size of each query buffer. */
  function Cap(e: Explorer): nat
    requires Valid(e)
  {
    |e.buffers[0]|
  }

  function StoredBuffer(e: Explorer): nat
    requires Valid(e)
  {
    1 - e.current
  }

  function CurrentQuery(e: Explorer): Str
    requires Valid(e)
  {
    e.buffers[e.current]
  }

  function StoredQuery(e: Explorer): Str
    requires Valid(e)
  {
    e.buffers[StoredBuffer(e)]
  }

  /** The typed query: the first `current_query_idx` bytes of the current buffer. */
  function Query(e: Explorer): (q: Str)
    requires Valid(e)
    ensures |q| == e.currentQueryIdx
  {
    CurrentQuery(e)[..e.currentQueryIdx]
  }

  /** The bytes of the current folder path as read at this moment. */
  function Resolve(e: Explorer): Str
    requires Valid(e)
  {
    match e.filepath
    case Owned(b) => b
    case QueryView(i, n) => e.buffers[i][..n]
  }

  /** `fexp_init`: both buffers of `pathMax` bytes (their initial content is
      never read), empty query, Regular mode. */
  function Init(cwd: Str, pathMax: nat): (e: Explorer)
    ensures Valid(e) && Cap(e) == pathMax
    ensures e.mode == Regular && Query(e) == [] && e.storedQueryIdx == 0 && !e.inited
    ensures Resolve(e) == cwd
  {
    var zeros := seq(pathMax, _ => 0 as u8);
    Explorer(0, 0, Owned(cwd), Regular, [zeros, zeros], 0, 0, 0, false, false)
  }

  //~ Key handling

  /** Exchanges the current and stored queries, buffers and indices together. */
  function Swap(e: Explorer): (s: Explorer)
    requires Valid(e)
    ensures Valid(s)
    ensures CurrentQuery(s) == StoredQuery(e) && StoredQuery(s) == CurrentQuery(e)
    ensures s.currentQueryIdx == e.storedQueryIdx && s.storedQueryIdx == e.currentQueryIdx
    ensures s.buffers == e.buffers && s.filepath == e.filepath
  {
    e.(current := 1 - e.current, currentQueryIdx := e.storedQueryIdx, storedQueryIdx := e.currentQueryIdx)
  }

  /** Enter in Drive mode: the typed text becomes the folder path (as an
      owned copy), the edited buffer is stored with its length, and editing
      resumes on the other buffer from index 0. */
  function EnterDrive(e: Explorer): (e': Explorer)
    requires Valid(e)
    ensures Valid(e')
    ensures StoredQuery(e') == CurrentQuery(e) && e'.storedQueryIdx == e.currentQueryIdx
    ensures CurrentQuery(e') == StoredQuery(e) && e'.currentQueryIdx == 0
    ensures e'.filepath == Owned(Query(e)) && Resolve(e') == Query(e)
    ensures e'.mode == Regular && e'.swappedToOtherMode
    ensures e'.buffers == e.buffers
  {
    e.(current := 1 - e.current, storedQueryIdx := e.currentQueryIdx, currentQueryIdx := 0,
       filepath := Owned(Query(e)), mode := Regular, swappedToOtherMode := true)
  }

  /** Enter in Drive mode as written: the path is a view of the stored
      buffer, which later editing can overwrite. */
  function EnterDriveAsWritten(e: Explorer): (e': Explorer)
    requires Valid(e)
    ensures Valid(e')
    ensures Resolve(e') == Query(e)
    ensures e' == EnterDrive(e).(filepath := QueryView(e.current, e.currentQueryIdx))
  {
    e.(current := 1 - e.current, storedQueryIdx := e.currentQueryIdx, currentQueryIdx := 0,
       filepath := QueryView(e.current, e.currentQueryIdx), mode := Regular, swappedToOtherMode := true)
  }

  /** Writes `c` at the query index and advances it; there is no check
      against the buffer size, so a full buffer is a `QueryOverflow`. */
  function Append(e: Explorer, c: u8, clearInited: bool): (r: Result<Explorer>)
    requires Valid(e)
    ensures r.Err? <==> e.currentQueryIdx == Cap(e)
    ensures r.Ok? ==> Valid(r.value) && Query(r.value) == Query(e) + [c]
  {
    if e.currentQueryIdx >= Cap(e) then Err(QueryOverflow)
    else
      var i := e.currentQueryIdx;
      var e' := e.(buffers := e.buffers[e.current := e.buffers[e.current][i := c]],
                   currentQueryIdx := i + 1,
                   inited := if clearInited then false else e.inited);
      assert Query(e') == Query(e) + [c] by {
        assert CurrentQuery(e') == CurrentQuery(e)[i := c];
      }
      Ok(e')
  }

  /** Every key press other than Enter in Drive mode. */
  function EditKey(e: Explorer, kc: KeyCodes, m: Modifiers, key: u8): (r: Result<Explorer>)
    requires Valid(e)
    ensures r.Ok? ==> Valid(r.value) && r.value.filepath == e.filepath
    ensures r.Err? ==> e.currentQueryIdx == Cap(e)
  {
    if e.mode == Drive && key == kc.escape then
      Ok(Swap(e).(mode := Regular, swappedToOtherMode := true))
    else if IsLetter(key) then
      if e.mode == Regular && key == KEY_D && m.control then
        Ok(Swap(e).(mode := Drive, swappedToOtherMode := false))
      else
        Append(e, if m.shift then key else key + LOWER_CASE_OFFSET, true)
    else if (key == kc.period || key == kc.minus || key == kc.apostrophe) && !m.shift then
      Append(e, key, true)
    else if key == kc.minus && m.shift then
      Append(e, UNDERSCORE, true)
    else if key == kc.backspace && !m.control then
      Ok(e.(currentQueryIdx := if e.currentQueryIdx - 1 < 0 then 0 else e.currentQueryIdx - 1, inited := false))
    else if key == kc.semicolon then
      Append(e, if m.shift then COLON else SEMICOLON, false)
    else
      Ok(e)
  }

  /** `fexp_input_key`. Only presses do anything; the folder path changes
      only through Enter in Drive mode. */
  function InputKey(e: Explorer, kc: KeyCodes, m: Modifiers, key: u8, action: int): (r: Result<Explorer>)
    requires Valid(e)
    ensures action != INPUT_PRESS ==> r == Ok(e)
    ensures r.Ok? ==> Valid(r.value)
    ensures r.Err? ==> r.fault == QueryOverflow && e.currentQueryIdx == Cap(e)
    ensures r.Ok? && !(e.mode == Drive && key == kc.enter) ==> r.value.filepath == e.filepath
    ensures r.Ok? && e.filepath.Owned? ==> r.value.filepath.Owned?
  {
    if action != INPUT_PRESS then Ok(e)
    else if e.mode == Drive && key == kc.enter then Ok(EnterDrive(e))
    else EditKey(e, kc, m, key)
  }

  /** `fexp_input_key` as written: Enter in Drive mode leaves the path
      aliasing the stored query buffer. */
  function InputKeyAsWritten(e: Explorer, kc: KeyCodes, m: Modifiers, key: u8, action: int): (r: Result<Explorer>)
    requires Valid(e)
    ensures r.Ok? ==> Valid(r.value)
    ensures !(action == INPUT_PRESS && e.mode == Drive && key == kc.enter) ==> r == InputKey(e, kc, m, key, action)
  {
    if action == INPUT_PRESS && e.mode == Drive && key == kc.enter then Ok(EnterDriveAsWritten(e))
    else InputKey(e, kc, m, key, action)
  }

  /** Which byte a key press appends to the query, key by key. */
  function AppendedByte(mode: Mode, kc: KeyCodes, m: Modifiers, key: u8): Option<u8> {
    if IsLetter(key) then
      if mode == Regular && key == KEY_D && m.control then None
      else Some(if m.shift then key else key + LOWER_CASE_OFFSET)
    else if key == kc.minus then Some(if m.shift then UNDERSCORE else key)
    else if (key == kc.period || key == kc.apostrophe) && !m.shift then Some(key)
    else if key == kc.semicolon then Some(if m.shift then COLON else SEMICOLON)
    else None
  }

  /** A key that appends writes exactly that byte at the query index and
      advances the index by one, leaving the stored query, the mode and the
      path alone; with the buffer full it overflows. */
  lemma KeyAppends(e: Explorer, kc: KeyCodes, m: Modifiers, key: u8)
    requires Valid(e) && WellFormedCodes(kc)
    requires AppendedByte(e.mode, kc, m, key).Some?
    ensures var c := AppendedByte(e.mode, kc, m, key).value;
      var r := InputKey(e, kc, m, key, INPUT_PRESS);
      && (e.currentQueryIdx < Cap(e) ==>
            && r.Ok?
            && r.value.currentQueryIdx == e.currentQueryIdx + 1
            && CurrentQuery(r.value) == CurrentQuery(e)[e.currentQueryIdx := c]
            && Query(r.value) == Query(e) + [c]
            && StoredQuery(r.value) == StoredQuery(e) && r.value.storedQueryIdx == e.storedQueryIdx
            && r.value.mode == e.mode && r.value.filepath == e.filepath)
      && (e.currentQueryIdx == Cap(e) ==> r == Err(QueryOverflow))
  {
  }

  /** Backspace without Control steps the index back, never below zero. */
  lemma BackspaceClamps(e: Explorer, kc: KeyCodes, m: Modifiers)
    requires Valid(e) && WellFormedCodes(kc) && !m.control
    ensures var r := InputKey(e, kc, m, kc.backspace, INPUT_PRESS);
      && r.Ok?
      && r.value.currentQueryIdx == (if e.currentQueryIdx > 0 then e.currentQueryIdx - 1 else 0)
      && r.value.buffers == e.buffers && r.value.mode == e.mode && !r.value.inited
  {
  }

  /** Ctrl+D in Regular mode followed by Escape restores both queries, both
      indices and the mode. */
  lemma DriveRoundTrip(e: Explorer, kc: KeyCodes, m1: Modifiers, m2: Modifiers)
    requires Valid(e) && WellFormedCodes(kc)
    requires e.mode == Regular && m1.control
    ensures var r1 := InputKey(e, kc, m1, KEY_D, INPUT_PRESS);
      && r1.Ok? && r1.value.mode == Drive
      && CurrentQuery(r1.value) == StoredQuery(e) && r1.value.currentQueryIdx == e.storedQueryIdx
      && var r2 := InputKey(r1.value, kc, m2, kc.escape, INPUT_PRESS);
         r2 == Ok(e.(swappedToOtherMode := true))
  {
  }

  /** One key press with its modifiers. */
  datatype Press = Press(mods: Modifiers, key: u8)

  /** Applies a sequence of presses, stopping at the first fault. */
  function Replay(e: Explorer, kc: KeyCodes, presses: seq<Press>, asWritten: bool): (r: Result<Explorer>)
    requires Valid(e)
    ensures r.Ok? ==> Valid(r.value)
    ensures presses == [] ==> r == Ok(e)
    decreases |presses|
  {
    if presses == [] then Ok(e)
    else
      var step := if asWritten then InputKeyAsWritten(e, kc, presses[0].mods, presses[0].key, INPUT_PRESS)
                  else InputKey(e, kc, presses[0].mods, presses[0].key, INPUT_PRESS);
      match step
      case Err(f) => Err(f)
      case Ok(e') => Replay(e', kc, presses[1..], asWritten)
  }

  /** Drive mode with "c:" typed in a four-byte buffer. */
  function DriveTyped(): (e: Explorer)
    ensures Valid(e) && e.mode == Drive && Query(e) == [99, 58]
  {
    Explorer(0, 0, Owned([]), Drive, [[99, 58, 0, 0], [0, 0, 0, 0]], 0, 2, 0, true, false)
  }

  /** Enter, then Ctrl+D to edit the drive again, Backspace, 'Y', and Escape
      to cancel the edit. */
  function CancelledDriveEdit(kc: KeyCodes): seq<Press> {
    var none := Modifiers(false, false);
    [Press(none, kc.enter), Press(Modifiers(false, true), KEY_D), Press(none, kc.backspace),
     Press(none, 89), Press(none, kc.escape)]
  }

  /** The presses of the cancelled edit, one state-to-state step each. */
  lemma CtrlDStep(e: Explorer, kc: KeyCodes, m: Modifiers)
    requires Valid(e) && WellFormedCodes(kc) && e.mode == Regular && m.control
    ensures InputKey(e, kc, m, KEY_D, INPUT_PRESS) == Ok(Swap(e).(mode := Drive, swappedToOtherMode := false))
  {
  }

  lemma BackspaceStep(e: Explorer, kc: KeyCodes, m: Modifiers)
    requires Valid(e) && WellFormedCodes(kc) && !m.control
    ensures InputKey(e, kc, m, kc.backspace, INPUT_PRESS)
      == Ok(e.(currentQueryIdx := if e.currentQueryIdx > 0 then e.currentQueryIdx - 1 else 0, inited := false))
  {
  }

  lemma LowerLetterStep(e: Explorer, kc: KeyCodes, m: Modifiers, key: u8)
    requires Valid(e) && WellFormedCodes(kc) && IsLetter(key) && !m.shift
    requires !(e.mode == Regular && key == KEY_D && m.control)
    ensures InputKey(e, kc, m, key, INPUT_PRESS) == Append(e, key + LOWER_CASE_OFFSET, true)
  {
  }

  lemma EscapeStep(e: Explorer, kc: KeyCodes, m: Modifiers)
    requires Valid(e) && WellFormedCodes(kc) && e.mode == Drive
    ensures InputKey(e, kc, m, kc.escape, INPUT_PRESS) == Ok(Swap(e).(mode := Regular, swappedToOtherMode := true))
  {
  }

  /** The cancelled edit replayed from "c:" typed in Drive mode, given how
      Enter treats the path: the final state, whose buffer 0 reads "cy". */
  lemma CancelledEditReplay(kc: KeyCodes, asWritten: bool) returns (e5: Explorer)
    requires WellFormedCodes(kc)
    ensures Valid(e5) && e5.mode == Regular && e5.current == 1
    ensures |e5.buffers| == 2 && |e5.buffers[0]| == 4 && e5.buffers[0][..2] == [99, 121]
    ensures Replay(DriveTyped(), kc, CancelledDriveEdit(kc), asWritten) == Ok(e5)
    ensures e5.filepath == (if asWritten then QueryView(0, 2) else Owned([99, 58]))
  {
    var ps := CancelledDriveEdit(kc);
    var none := Modifiers(false, false);
    var e0 := DriveTyped();
    var e1 := if asWritten then EnterDriveAsWritten(e0) else EnterDrive(e0);
    assert e1.current == 1 && e1.mode == Regular && Valid(e1);
    CtrlDStep(e1, kc, Modifiers(false, true));
    var e2 := Swap(e1).(mode := Drive, swappedToOtherMode := false);
    assert e2.current == 0 && e2.currentQueryIdx == 2;
    BackspaceStep(e2, kc, none);
    var e3 := e2.(currentQueryIdx := 1, inited := false);
    LowerLetterStep(e3, kc, none, 89);
    assert Query(e3) == [99];
    var r4 := Append(e3, 121, true);
    var e4 := r4.value;
    assert e4.current == 0 && e4.currentQueryIdx == 2 && e4.filepath == e1.filepath;
    assert Query(e4) == [99, 121];
    EscapeStep(e4, kc, none);
    e5 := Swap(e4).(mode := Regular, swappedToOtherMode := true);
    assert Replay(e5, kc, ps[5..], asWritten) == Ok(e5);
    assert Replay(e4, kc, ps[4..], asWritten) == Ok(e5);
    assert Replay(e3, kc, ps[3..], asWritten) == Ok(e5);
    assert Replay(e2, kc, ps[2..], asWritten) == Ok(e5);
    assert Replay(e1, kc, ps[1..], asWritten) == Ok(e5);
  }

  /** With the path aliasing a query buffer, the cancelled edit still moves
      the folder from "c:" to "cy". */
  lemma CancelledEditMovesAliasedPath(kc: KeyCodes)
    requires WellFormedCodes(kc)
    ensures var r := Replay(DriveTyped(), kc, CancelledDriveEdit(kc), true);
      r.Ok? && r.value.mode == Regular && Resolve(r.value) == [99, 121]
  {
    var e5 := CancelledEditReplay(kc, true);
  }

  /** With the path copied on Enter, the same presses leave it at "c:". */
  lemma CancelledEditKeepsOwnedPath(kc: KeyCodes)
    requires WellFormedCodes(kc)
    ensures var r := Replay(DriveTyped(), kc, CancelledDriveEdit(kc), false);
      r.Ok? && r.value.mode == Regular && Resolve(r.value) == [99, 58]
  {
    var e5 := CancelledEditReplay(kc, false);
  }

  //~ Per-frame update

  datatype Entry = Entry(name: Str, isFolder: bool)

  /** Keyboard state sampled by `fexp_update`. */
  datatype FrameKeys = FrameKeys(downArrow: bool, upArrow: bool, enterPressed: bool,
                                 controlHeld: bool, backspacePressed: bool)

  /** Base-layer and utility routines the update calls: `str_find_first`
      (absent needle reported as the haystack's size), `Wrap` and
      `U_FixFilepath`. */
  datatype Helpers = Helpers(findFirst: (Str, Str) -> int, wrap: (int, int, int) -> int, fixFilepath: Str -> Str)

  /** What Enter on the selected entry asks for. */
  datatype Opened = NothingOpened | OpenedFolder(name: Str) | OpenedFile(path: Str, name: Str)

  /** An entry matches when the query occurs in its name. */
  function Matching(h: Helpers, query: Str): Entry -> bool {
    (en: Entry) => h.findFirst(en.name, query) != |en.name|
  }

  function Names(es: seq<Entry>): (ns: seq<Str>)
    ensures |ns| == |es| && forall k :: 0 <= k < |es| ==> ns[k] == es[k].name
  {
    seq(|es|, k requires 0 <= k < |es| => es[k].name)
  }

  /** `a - b` in 32-bit unsigned arithmetic. */
  function U32Sub(a: nat, b: nat): (r: nat)
    ensures r < 0x1_0000_0000
    ensures a >= b && a - b < 0x1_0000_0000 ==> r == a - b
    ensures a < b && b - a <= 0x1_0000_0000 ==> r == a - b + 0x1_0000_0000
  {
    (a - b) % 0x1_0000_0000
  }

  /** The selection after the arrow keys and the wrap into `0..count-1`. */
  function SteppedSelection(e: Explorer, keys: FrameKeys, count: nat, h: Helpers): int {
    var s := if keys.downArrow then e.selectedIndex + 1
             else if keys.upArrow then e.selectedIndex - 1
             else e.selectedIndex;
    h.wrap(0, s, U32Sub(count, 1))
  }

  /** The count pass over the listing. */
  method CountMatches(entries: seq<Entry>, p: Entry -> bool) returns (n: nat)
    ensures n == CountIf(entries, p)
  {
    n := 0;
    var i := 0;
    while i < |entries|
      invariant 0 <= i <= |entries|
      invariant n == CountIf(entries[..i], p)
    {
      assert entries[..i + 1][..i] == entries[..i];
      if p(entries[i]) {
        n := n + 1;
      }
      i := i + 1;
    }
    assert entries[..i] == entries;
  }

  /** Walking `s` in order, the i-th element, when it satisfies `p`, is the
      filtered element at the position counted so far. */
  lemma FilterStep<T>(s: seq<T>, i: nat, p: T -> bool)
    requires i < |s|
    ensures CountIf(s[..i + 1], p) == CountIf(s[..i], p) + (if p(s[i]) then 1 else 0)
    ensures CountIf(s[..i + 1], p) <= |Filter(s, p)|
    ensures p(s[i]) ==> Filter(s, p)[CountIf(s[..i], p)] == s[i]
  {
    assert s[..i + 1][..i] == s[..i];
    FilterPrefix(s, i + 1, p);
  }

  /** The selection pass: the entry at position `sel` among the matches is
      the selection, and is opened when `openNow` holds. */
  method SelectionPass(entries: seq<Entry>, p: Entry -> bool, sel: int, openNow: bool)
    returns (selection: Str, chosen: Option<Entry>)
    ensures var ms := Filter(entries, p);
      if 0 <= sel < |ms| then
        selection == ms[sel].name && chosen == (if openNow then Some(ms[sel]) else None)
      else
        selection == [] && chosen == None
  {
    selection := [];
    chosen := None;
    ghost var all := Filter(entries, p);
    var k := 0;
    var i := 0;
    while i < |entries| && chosen.None?
      invariant 0 <= i <= |entries|
      invariant k == CountIf(entries[..i], p) <= |all|
      invariant 0 <= sel < k ==> selection == all[sel].name
      invariant !(0 <= sel < k) ==> selection == []
      invariant chosen.Some? ==> openNow && 0 <= sel < k && chosen.value == all[sel]
      invariant chosen.None? ==> !(openNow && 0 <= sel < k)
    {
      FilterStep(entries, i, p);
      if p(entries[i]) {
        if 0 <= sel && k == sel {
          selection := entries[i].name;
          if openNow {
            chosen := Some(entries[i]);
          }
        }
        k := k + 1;
      }
      i := i + 1;
    }
    if chosen.None? {
      assert entries[..i] == entries;
    }
  }

  /** The end of `fexp_update`: Ctrl+Backspace goes up a folder (or clears a
      path without "/"), a folder change resets selection, query index and
      `inited`, and the mode-switch flag is always cleared. */
  function FinishUpdate(e: Explorer, count: nat, selected: int, folderChanged: bool,
                        keys: FrameKeys, h: Helpers): (e': Explorer)
    requires Valid(e)
    ensures Valid(e')
    ensures e'.latestCount == count && !e'.swappedToOtherMode
    ensures e'.mode == e.mode && e'.buffers == e.buffers && e'.current == e.current
    ensures e'.storedQueryIdx == e.storedQueryIdx
    ensures var goUp := keys.controlHeld && keys.backspacePressed;
      var slashAt := h.findFirst(Resolve(e), [SLASH]);
      var changed := folderChanged || (goUp && slashAt != |Resolve(e)|);
      && (changed ==> e'.selectedIndex == 0 && e'.currentQueryIdx == 0 && !e'.inited)
      && (!changed ==> e'.selectedIndex == selected && e'.currentQueryIdx == e.currentQueryIdx && e'.inited)
      && (goUp && slashAt == |Resolve(e)| ==> Resolve(e') == [])
      && (goUp && slashAt != |Resolve(e)| ==> Resolve(e') == h.fixFilepath(Resolve(e) + [SLASH, DOT, DOT]))
      && (!goUp ==> e'.filepath == e.filepath)
  {
    var goUp := keys.controlHeld && keys.backspacePressed;
    var path := Resolve(e);
    var up := goUp && h.findFirst(path, [SLASH]) != |path|;
    var filepath :=
      if !goUp then e.filepath
      else if up then Owned(h.fixFilepath(path + [SLASH, DOT, DOT]))
      else Owned([]);
    var changed := folderChanged || up;
    var sel := if changed then 0 else selected;
    var qidx := if changed then 0 else e.currentQueryIdx;
    // The selection rectangle is re-targeted (and `inited` set) when the
    // selection moved or was not yet placed; a folder change undoes it.
    var inited := if sel != e.selectedIndex || !e.inited then true else e.inited;
    e.(latestCount := count, selectedIndex := sel, filepath := filepath, currentQueryIdx := qidx,
       inited := if changed then false else inited, swappedToOtherMode := false)
  }

  /** What Enter on the stepped selection opens this frame: nothing unless
      Enter was pressed, the mode did not just switch and the selection is a
      match; a folder by name, a file by its path under the current folder. */
  function Opening(e: Explorer, entries: seq<Entry>, keys: FrameKeys, h: Helpers): (o: Opened)
    requires Valid(e)
    ensures var ms := Filter(entries, Matching(h, Query(e)));
      var s := SteppedSelection(e, keys, |ms|, h);
      && (o != NothingOpened <==> keys.enterPressed && !e.swappedToOtherMode && 0 <= s < |ms|)
      && (o.OpenedFolder? ==> ms[s].isFolder && o.name == ms[s].name)
      && (o.OpenedFile? ==> !ms[s].isFolder && o.name == ms[s].name && o.path == Resolve(e) + [SLASH] + ms[s].name)
  {
    var ms := Filter(entries, Matching(h, Query(e)));
    var s := SteppedSelection(e, keys, |ms|, h);
    if keys.enterPressed && !e.swappedToOtherMode && 0 <= s < |ms| then
      if ms[s].isFolder then OpenedFolder(ms[s].name)
      else OpenedFile(Resolve(e) + [SLASH] + ms[s].name, ms[s].name)
    else NothingOpened
  }

  /** The explorer after `fexp_update`: an opened folder becomes the path,
      and the end-of-update rules apply with the folder counted as changed
      when the mode just switched or something was opened. */
  function UpdatedExplorer(e: Explorer, entries: seq<Entry>, keys: FrameKeys, h: Helpers): (e': Explorer)
    requires Valid(e)
    ensures Valid(e')
    ensures Opening(e, entries, keys, h).OpenedFolder? && !(keys.controlHeld && keys.backspacePressed) ==>
      e'.filepath == Owned(h.fixFilepath(Resolve(e) + [SLASH] + Opening(e, entries, keys, h).name))
    ensures Opening(e, entries, keys, h) != NothingOpened || e.swappedToOtherMode ==>
      e'.selectedIndex == 0 && e'.currentQueryIdx == 0 && !e'.inited
    ensures Opening(e, entries, keys, h) == NothingOpened && !e.swappedToOtherMode
            && !(keys.controlHeld && keys.backspacePressed) ==>
      && e'.filepath == e.filepath
      && e'.selectedIndex == SteppedSelection(e, keys, CountIf(entries, Matching(h, Query(e))), h)
      && e'.currentQueryIdx == e.currentQueryIdx && e'.inited
  {
    var ms := Filter(entries, Matching(h, Query(e)));
    var s := SteppedSelection(e, keys, |ms|, h);
    var o := Opening(e, entries, keys, h);
    var e1 := if o.OpenedFolder? then e.(filepath := Owned(h.fixFilepath(Resolve(e) + [SLASH] + o.name))) else e;
    FinishUpdate(e1, |ms|, s, e.swappedToOtherMode || o != NothingOpened, keys, h)
  }

  /** `fexp_update` over one directory listing: the count, selection and
      finishing passes compute exactly the reference update. */
  method Update(e: Explorer, entries: seq<Entry>, keys: FrameKeys, h: Helpers)
    returns (e': Explorer, selection: Str, chosen: Opened)
    requires Valid(e)
    ensures Valid(e')
    ensures e' == UpdatedExplorer(e, entries, keys, h) && chosen == Opening(e, entries, keys, h)
    ensures var ms := Filter(entries, Matching(h, Query(e)));
      var s := SteppedSelection(e, keys, |ms|, h);
      && e'.latestCount == |ms|
      && (0 <= s < |ms| ==> selection == ms[s].name)
      && (!(0 <= s < |ms|) ==> selection == [])
      && (chosen != NothingOpened <==> keys.enterPressed && !e.swappedToOtherMode && 0 <= s < |ms|)
      && (chosen.OpenedFolder? ==> ms[s].isFolder && chosen.name == ms[s].name)
      && (chosen.OpenedFile? ==> !ms[s].isFolder && chosen.name == ms[s].name
                                 && chosen.path == Resolve(e) + [SLASH] + ms[s].name)
    ensures !e'.swappedToOtherMode
    ensures e'.mode == e.mode && e'.buffers == e.buffers && e'.current == e.current
    ensures e.swappedToOtherMode || chosen != NothingOpened ==>
      e'.selectedIndex == 0 && e'.currentQueryIdx == 0 && !e'.inited
  {
    var p := Matching(h, Query(e));
    var count := CountMatches(entries, p);
    var sel := SteppedSelection(e, keys, count, h);
    var folderChanged := e.swappedToOtherMode;
    var found;
    selection, found := SelectionPass(entries, p, sel, keys.enterPressed && !e.swappedToOtherMode);
    var e1 := e;
    chosen := NothingOpened;
    if found.Some? {
      var path := Resolve(e);
      if found.value.isFolder {
        e1 := e.(filepath := Owned(h.fixFilepath(path + [SLASH] + found.value.name)));
        chosen := OpenedFolder(found.value.name);
      } else {
        chosen := OpenedFile(path + [SLASH] + found.value.name, found.value.name);
      }
      folderChanged := true;
    }
    e' := FinishUpdate(e1, count, sel, folderChanged, keys, h);
  }

  /** "Enter Drive: " */
  const DRIVE_PROMPT: Str := [69, 110, 116, 101, 114, 32, 68, 114, 105, 118, 101, 58, 32]

  /** The render pass: the header line (the prompt and query in Drive mode,
      the folder, "/" and query in Regular mode) and, in Regular mode only,
      the names of the matching entries in listing order. */
  method RenderPass(e: Explorer, entries: seq<Entry>, h: Helpers) returns (header: Str, rows: seq<Str>)
    requires Valid(e)
    ensures e.mode == Drive ==> header == DRIVE_PROMPT + Query(e) && rows == []
    ensures e.mode == Regular ==> header == Resolve(e) + [SLASH] + Query(e)
    ensures e.mode == Regular ==> rows == Names(Filter(entries, Matching(h, Query(e))))
    ensures |header| >= |Query(e)| && header[|header| - |Query(e)|..] == Query(e)
  {
    var query := Query(e);
    header := Resolve(e) + [SLASH] + query;
    rows := [];
    if e.mode == Drive {
      header := DRIVE_PROMPT + query;
      return;
    }
    var p := Matching(h, query);
    var i := 0;
    while i < |entries|
      invariant 0 <= i <= |entries|
      invariant rows == Names(Filter(entries[..i], p))
    {
      assert entries[..i + 1] == entries[..i] + [entries[i]];
      FilterSnoc(entries[..i], entries[i], p);
      if p(entries[i]) {
        rows := rows + [entries[i].name];
      }
      i := i + 1;
    }
    assert entries[..i] == entries;
  }

  /** Count, selection and render passes use one predicate: the rendered rows
      are as many as the count, and row `s` is the selected entry. */
  lemma PassesAgree(e: Explorer, entries: seq<Entry>, h: Helpers, s: int)
    requires Valid(e) && e.mode == Regular
    requires 0 <= s < CountIf(entries, Matching(h, Query(e)))
    ensures var ms := Filter(entries, Matching(h, Query(e)));
      |Names(ms)| == CountIf(entries, Matching(h, Query(e))) && Names(ms)[s] == ms[s].name
  {
  }
}
