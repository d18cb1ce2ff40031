/**
 * The two document listeners of script.js that react to user input: the
 * contextmenu listener (lines 232-235) and the cross-platform keydown
 * listener (lines 238-271).
 */
module InputListeners {
  import opened Wrappers
  import opened Text
  import opened Detection

  // ---------------------------------------------------------------------
  // contextmenu

  /** A right-click; the listener reads nothing from it. */
  datatype ContextMenuEvent = ContextMenuEvent

  /** Every right-click is suppressed and reported. */
  function OnContextMenu(e: ContextMenuEvent): (r: Response)
    ensures r.WellFormed() && r.reason == Some(RightClick) && r.preventDefault
  {
    Detected(RightClick)
  }

  /** The contextmenu listener: exactly one handleDetection call per right-click. */
  method ContextMenuListener(log: DetectionLog, e: ContextMenuEvent)
    modifies log
    ensures log.reasons == old(log.reasons) + [Tag(RightClick)]
  {
    var r := OnContextMenu(e);
    log.Handle(r.reason.value);
  }

  // ---------------------------------------------------------------------
  // keydown

  /** The fields of a KeyboardEvent the listener reads; `key` may be undefined. */
  datatype KeyEvent = KeyEvent(
    key: Option<string>,
    keyCode: int,
    metaKey: bool,
    ctrlKey: bool,
    shiftKey: bool)

  /** The alternatives of the platform regex /Mac|iPhone|iPad|iPod/. */
  const AppleNames: set<string> := {"Mac", "iPhone", "iPad", "iPod"}

  /** The regex test on navigator.platform: some Apple name occurs in it. */
  function IsApplePlatform(platform: string): (b: bool)
    ensures b <==> exists name, i :: name in AppleNames && OccursAt(platform, name, i)
  {
    Contains(platform, "Mac") || Contains(platform, "iPhone")
      || Contains(platform, "iPad") || Contains(platform, "iPod")
  }

  /** The "Ctrl/Cmd" modifier: Meta on Apple platforms, Control elsewhere. */
  function PrimaryModifier(platform: string, e: KeyEvent): bool
  {
    if IsApplePlatform(platform) then e.metaKey else e.ctrlKey
  }

  /** `e.key && e.key.toLowerCase() === letter`: a defined, non-empty key naming the letter. */
  predicate KeyIs(key: Option<string>, letter: char)
  {
    key.Some? && key.value != "" && ToLower(key.value) == [letter]
  }

  /** The listener body: the first matching combo, tried in a fixed order, wins. */
  function OnKeyDown(platform: string, e: KeyEvent): (r: Response)
    ensures r.WellFormed()
  {
    var primary := PrimaryModifier(platform, e);
    if e.key == Some("F12") || e.keyCode == 123 then
      Detected(F12Key)
    else if primary && e.shiftKey && (KeyIs(e.key, 'i') || KeyIs(e.key, 'j')) then
      Detected(InspectorShortcut)
    else if primary && KeyIs(e.key, 'u') then
      Detected(ViewSource)
    else if primary && e.shiftKey && KeyIs(e.key, 'c') then
      Detected(ElementPicker)
    else
      Ignored
  }

  /** The keydown listener: one handleDetection call when a combo matched, none otherwise. */
  method KeyDownListener(log: DetectionLog, platform: string, e: KeyEvent)
    modifies log
    ensures var r := OnKeyDown(platform, e);
      log.reasons == old(log.reasons) + (if r.reason.Some? then [Tag(r.reason.value)] else [])
  {
    var r := OnKeyDown(platform, e);
    if r.reason.Some? {
      log.Handle(r.reason.value);
    }
  }

  // ---------------------------------------------------------------------
  // An order-free description of the combos, to compare the listener with

  /** Whether `combo` is held in `e`, the letter's case written out in full. */
  predicate Held(combo: Reason, platform: string, e: KeyEvent)
  {
    var primary := PrimaryModifier(platform, e);
    match combo
    case F12Key => e.key == Some("F12") || e.keyCode == 123
    case InspectorShortcut =>
      primary && e.shiftKey && e.key in {Some("i"), Some("I"), Some("j"), Some("J")}
    case ViewSource => primary && e.key in {Some("u"), Some("U")}
    case ElementPicker => primary && e.shiftKey && e.key in {Some("c"), Some("C")}
    case _ => false
  }

  /** The keyboard combos, highest priority first. */
  const ComboPriority: seq<Reason> := [F12Key, InspectorShortcut, ViewSource, ElementPicker]

  /** `combos[k]` is held and no combo before it is. */
  predicate FirstHeldAt(combos: seq<Reason>, k: int, platform: string, e: KeyEvent)
  {
    0 <= k < |combos| && Held(combos[k], platform, e)
    && forall j :: 0 <= j < k ==> !Held(combos[j], platform, e)
  }

  /** The first combo of `combos` that is held, if any. */
  function FirstHeld(combos: seq<Reason>, platform: string, e: KeyEvent): (r: Option<Reason>)
    ensures r.None? <==> forall k :: 0 <= k < |combos| ==> !Held(combos[k], platform, e)
    ensures r.Some? ==> exists k :: FirstHeldAt(combos, k, platform, e) && combos[k] == r.value
  {
    if combos == [] then None
    else if Held(combos[0], platform, e) then
      assert FirstHeldAt(combos, 0, platform, e);
      Some(combos[0])
    else
      var r := FirstHeld(combos[1..], platform, e);
      assert r.Some? ==> exists k :: FirstHeldAt(combos, k, platform, e) && combos[k] == r.value by {
        if r.Some? {
          var k :| FirstHeldAt(combos[1..], k, platform, e) && combos[1..][k] == r.value;
          forall j | 0 <= j < k + 1 ensures !Held(combos[j], platform, e) {
            if j > 0 { assert combos[j] == combos[1..][j - 1]; }
          }
          assert FirstHeldAt(combos, k + 1, platform, e);
        }
      }
      assert r.None? ==> forall k :: 0 <= k < |combos| ==> !Held(combos[k], platform, e) by {
        if r.None? {
          forall k | 0 <= k < |combos| ensures !Held(combos[k], platform, e) {
            if k > 0 { assert combos[k] == combos[1..][k - 1]; }
          }
        }
      }
      r
  }

  /** `e.key.toLowerCase() === letter` holds for exactly the lower- and upper-case letter. */
  lemma KeyIsLetter(key: Option<string>, letter: char)
    requires 'a' <= letter <= 'z'
    ensures KeyIs(key, letter) <==> key == Some([letter]) || key == Some([(letter as int - 32) as char])
  {
    if key.Some? {
      ToLowerIsLetter(key.value, letter);
    }
  }

  /**
   * The listener reports the highest-priority combo that is held, and nothing
   * when none is: F12, then Ctrl/Cmd+Shift+I/J, then Ctrl/Cmd+U, then
   * Ctrl/Cmd+Shift+C.
   */
  lemma OnKeyDownIsFirstHeldCombo(platform: string, e: KeyEvent)
    ensures OnKeyDown(platform, e).reason == FirstHeld(ComboPriority, platform, e)
  {
    KeyIsLetter(e.key, 'i');
    KeyIsLetter(e.key, 'j');
    KeyIsLetter(e.key, 'u');
    KeyIsLetter(e.key, 'c');
    assert ('i' as int - 32) as char == 'I' && ('j' as int - 32) as char == 'J';
    assert ('u' as int - 32) as char == 'U' && ('c' as int - 32) as char == 'C';
    var tail1 := [InspectorShortcut, ViewSource, ElementPicker];
    var tail2 := [ViewSource, ElementPicker];
    assert ComboPriority[1..] == tail1 && tail1[1..] == tail2 && tail2[1..] == [ElementPicker];
    assert [ElementPicker][1..] == [];
    assert FirstHeld(ComboPriority, platform, e)
      == if Held(F12Key, platform, e) then Some(F12Key) else FirstHeld(tail1, platform, e);
    assert FirstHeld(tail1, platform, e)
      == if Held(InspectorShortcut, platform, e) then Some(InspectorShortcut) else FirstHeld(tail2, platform, e);
    assert FirstHeld(tail2, platform, e)
      == if Held(ViewSource, platform, e) then Some(ViewSource) else FirstHeld([ElementPicker], platform, e);
    assert FirstHeld([ElementPicker], platform, e)
      == if Held(ElementPicker, platform, e) then Some(ElementPicker) else None;
  }

  // ---------------------------------------------------------------------
  // Consequences for individual keys

  /** navigator.platform values of Apple devices select Meta; others select Control. */
  lemma PlatformExamples()
    ensures IsApplePlatform("MacIntel") && IsApplePlatform("iPhone") && IsApplePlatform("iPad")
    ensures !IsApplePlatform("Win32") && !IsApplePlatform("")
  {
    assert OccursAt("MacIntel", "Mac", 0);
    assert OccursAt("iPhone", "iPhone", 0);
    assert OccursAt("iPad", "iPad", 0);
    forall name, i | name in AppleNames ensures !OccursAt("Win32", name, i) {
      if 0 <= i && i + |name| <= |"Win32"| {
        var window := "Win32"[i..i + |name|];
        assert window[0] == "Win32"[i] && window[1] == "Win32"[i + 1];
      }
    }
  }

  /** F12, named by `key` or by keyCode 123, is reported whatever modifiers are held. */
  lemma F12AlwaysReported(platform: string, e: KeyEvent)
    requires e.key == Some("F12") || e.keyCode == 123
    ensures OnKeyDown(platform, e) == Detected(F12Key)
  {
  }

  /** The modifier that is not the platform's primary one never changes the outcome. */
  lemma OtherModifierIrrelevant(platform: string, e: KeyEvent, other: bool)
    ensures var e' := if IsApplePlatform(platform) then e.(ctrlKey := other) else e.(metaKey := other);
      OnKeyDown(platform, e') == OnKeyDown(platform, e)
  {
  }

  /** I and J (either case) are reported only with both the primary modifier and Shift. */
  lemma InspectorKeysNeedShift(platform: string, e: KeyEvent)
    requires e.keyCode != 123 && e.key in {Some("i"), Some("I"), Some("j"), Some("J")}
    ensures OnKeyDown(platform, e).reason
      == if PrimaryModifier(platform, e) && e.shiftKey then Some(InspectorShortcut) else None
  {
    OnKeyDownIsFirstHeldCombo(platform, e);
  }

  /** U (either case) is reported with the primary modifier, with or without Shift. */
  lemma ViewSourceKeyIgnoresShift(platform: string, e: KeyEvent)
    requires e.keyCode != 123 && e.key in {Some("u"), Some("U")}
    ensures OnKeyDown(platform, e).reason
      == if PrimaryModifier(platform, e) then Some(ViewSource) else None
  {
    OnKeyDownIsFirstHeldCombo(platform, e);
  }

  /** C (either case) is reported only with both the primary modifier and Shift. */
  lemma ElementPickerKeyNeedsShift(platform: string, e: KeyEvent)
    requires e.keyCode != 123 && e.key in {Some("c"), Some("C")}
    ensures OnKeyDown(platform, e).reason
      == if PrimaryModifier(platform, e) && e.shiftKey then Some(ElementPicker) else None
  {
    OnKeyDownIsFirstHeldCombo(platform, e);
  }

  /** An undefined or empty `key` is reported only through keyCode 123. */
  lemma MissingKeyIgnored(platform: string, e: KeyEvent)
    requires e.key == None || e.key == Some("")
    requires e.keyCode != 123
    ensures OnKeyDown(platform, e) == Ignored
  {
  }
}
