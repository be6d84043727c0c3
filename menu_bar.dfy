/**
 * `MenuBarManager` (AuraLyrics/Services/MenuBarManager.swift): the status-bar
 * menu that chooses between the lyrics window and the Aura window, hides
 * and shows them, and locks each one against mouse clicks.
 *
 * The `WindowManager` it drives is four booleans of the class: whether each
 * panel is on screen and whether each lets clicks through. The
 * `UserDefaults` entry that remembers the mode is the field `stored`. The
 * menu it installs is the field `menu`, computed by the pure function
 * `Menu` from the four state variables `updateMenu` reads.
 */
module MenuBar {
  import opened Wrappers

  datatype AppMode = Lyrics | Aura

  /** The `String` raw value of a mode. */
  function RawValue(mode: AppMode): string {
    match mode
    case Lyrics => "lyrics"
    case Aura => "aura"
  }

  /** `AppMode(rawValue:)`. */
  function FromRawValue(s: string): Option<AppMode> {
    if s == "lyrics" then Some(Lyrics)
    else if s == "aura" then Some(Aura)
    else None
  }

  /** The raw value of a mode reads back as that mode, and only raw values read back. */
  lemma RawValueRoundTrip(mode: AppMode, s: string)
    ensures FromRawValue(RawValue(mode)) == Some(mode)
    ensures FromRawValue(s) == Some(mode) <==> s == RawValue(mode)
  {
  }

  /** The mode `setup` restores from the stored entry: a valid raw value, else `.lyrics`. */
  function RestoredMode(stored: Option<string>): AppMode {
    if stored.Some? && FromRawValue(stored.value).Some? then FromRawValue(stored.value).value
    else Lyrics
  }

  /** A saved mode is restored; a missing or unknown entry restores `.lyrics`. */
  lemma RestoredModeSpec(stored: Option<string>, mode: AppMode)
    ensures RestoredMode(Some(RawValue(mode))) == mode
    ensures stored.None? ==> RestoredMode(stored) == Lyrics
    ensures stored.Some? && stored.value != "lyrics" && stored.value != "aura" ==> RestoredMode(stored) == Lyrics
  {
  }

  // ------------------------------------------------------------------ menu

  /**
   * One entry of the status menu: the embedded player controls, a
   * separator, or an item with its title, whether it is enabled and
   * whether it carries a check mark. The Theme and Aura Size submenus'
   * own items are not part of the model.
   */
  datatype MenuEntry = Controls | Separator | Item(title: string, enabled: bool, checked: bool)

  function ShowHideTitle(mode: AppMode, visible: bool): string {
    if !visible then (if mode == Lyrics then "Show Lyrics View" else "Show Aura Mode")
    else "Hide Window"
  }

  function SwitchTitle(mode: AppMode): string {
    if mode == Lyrics then "Switch to Aura Mode" else "Return to Lyrics View"
  }

  function LockTitle(mode: AppMode, locked: bool): string {
    match mode
    case Lyrics => if locked then "Unlock Lyrics View" else "Lock Lyrics View"
    case Aura => if locked then "Unlock Aura Mode" else "Lock Aura Mode"
  }

  /** The lock flag of the window of `mode`. */
  function LockOf(mode: AppMode, lyricsLocked: bool, auraLocked: bool): bool {
    if mode == Lyrics then lyricsLocked else auraLocked
  }

  /** `updateMenu`: the entries it adds, in order. */
  function Menu(mode: AppMode, visible: bool, lyricsLocked: bool, auraLocked: bool): (m: seq<MenuEntry>)
    ensures |m| == 11
  {
    [ Controls, Separator,
      Item(ShowHideTitle(mode, visible), true, false),
      Item(SwitchTitle(mode), true, false),
      Separator,
      Item("Theme", true, false),
      Item("Aura Size", mode == Aura, false),
      Separator,
      Item(LockTitle(mode, LockOf(mode, lyricsLocked, auraLocked)), visible, LockOf(mode, lyricsLocked, auraLocked)),
      Separator,
      Item("Quit", true, false) ]
  }

  /** Whether some entry of `m` is an item titled `title`. */
  predicate HasItem(m: seq<MenuEntry>, title: string) {
    exists i :: 0 <= i < |m| && m[i].Item? && m[i].title == title
  }

  /** "Hide Window" is offered exactly when the window is visible. */
  lemma HideOfferedIff(mode: AppMode, visible: bool, ll: bool, al: bool)
    ensures HasItem(Menu(mode, visible, ll, al), "Hide Window") <==> visible
  {
    if visible { assert Menu(mode, visible, ll, al)[2].title == "Hide Window"; }
  }

  /** A hidden window is offered back as the current mode's view. */
  lemma ShowLyricsOfferedIff(mode: AppMode, visible: bool, ll: bool, al: bool)
    ensures HasItem(Menu(mode, visible, ll, al), "Show Lyrics View") <==> !visible && mode == Lyrics
  {
    if !visible && mode == Lyrics { assert Menu(mode, visible, ll, al)[2].title == "Show Lyrics View"; }
  }

  lemma ShowAuraOfferedIff(mode: AppMode, visible: bool, ll: bool, al: bool)
    ensures HasItem(Menu(mode, visible, ll, al), "Show Aura Mode") <==> !visible && mode == Aura
  {
    if !visible && mode == Aura { assert Menu(mode, visible, ll, al)[2].title == "Show Aura Mode"; }
  }

  /** The switch entry leads to the other mode. */
  lemma SwitchToAuraOfferedIff(mode: AppMode, visible: bool, ll: bool, al: bool)
    ensures HasItem(Menu(mode, visible, ll, al), "Switch to Aura Mode") <==> mode == Lyrics
  {
    if mode == Lyrics { assert Menu(mode, visible, ll, al)[3].title == "Switch to Aura Mode"; }
  }

  lemma ReturnToLyricsOfferedIff(mode: AppMode, visible: bool, ll: bool, al: bool)
    ensures HasItem(Menu(mode, visible, ll, al), "Return to Lyrics View") <==> mode == Aura
  {
    if mode == Aura { assert Menu(mode, visible, ll, al)[3].title == "Return to Lyrics View"; }
  }

  /** "Aura Size" is enabled exactly in Aura mode. */
  lemma AuraSizeEnabledIff(mode: AppMode, visible: bool, ll: bool, al: bool)
    ensures var m := Menu(mode, visible, ll, al);
      forall i :: 0 <= i < |m| && m[i].Item? && m[i].title == "Aura Size" ==> (m[i].enabled <==> mode == Aura)
  {
  }

  /** Whether `title` is one of the four lock titles. */
  predicate IsLockTitle(title: string) {
    title in {"Lock Lyrics View", "Unlock Lyrics View", "Lock Aura Mode", "Unlock Aura Mode"}
  }

  /**
   * The lock entry is the current mode's: it says "Unlock" and is checked
   * exactly when that window is locked, and it is enabled exactly when the
   * window is visible.
   */
  lemma LockEntry(mode: AppMode, visible: bool, ll: bool, al: bool)
    ensures var m := Menu(mode, visible, ll, al);
      && m[8].Item? && IsLockTitle(m[8].title)
      && m[8].title == LockTitle(mode, LockOf(mode, ll, al))
      && (m[8].checked <==> LockOf(mode, ll, al))
      && (m[8].enabled <==> visible)
  {
  }

  /** No other entry carries a lock title: exactly one lock entry appears. */
  lemma OneLockEntry(mode: AppMode, visible: bool, ll: bool, al: bool)
    ensures var m := Menu(mode, visible, ll, al);
      forall i :: 0 <= i < |m| && m[i].Item? && IsLockTitle(m[i].title) ==> i == 8
  {
    var m := Menu(mode, visible, ll, al);
    forall i | 0 <= i < |m| && m[i].Item? && i != 8
      ensures !IsLockTitle(m[i].title)
    {
      if i == 2 {
        assert !IsLockTitle(ShowHideTitle(mode, visible));
      } else if i == 3 {
        assert !IsLockTitle(SwitchTitle(mode));
      }
    }
  }

  /** The other window's lock entry is never offered. */
  lemma OtherLockAbsent(mode: AppMode, visible: bool, ll: bool, al: bool, locked: bool)
    ensures !HasItem(Menu(mode, visible, ll, al), LockTitle(if mode == Lyrics then Aura else Lyrics, locked))
  {
  }

  /** The menu does not depend on the lock of the window not shown in the current mode. */
  lemma MenuIgnoresOtherLock(visible: bool, l1: bool, l2: bool, a1: bool, a2: bool)
    ensures Menu(Lyrics, visible, l1, a1) == Menu(Lyrics, visible, l1, a2)
    ensures Menu(Aura, visible, l1, a1) == Menu(Aura, visible, l2, a1)
  {
  }

  /**
   * Which panels are on screen: with the window visible, exactly the
   * current mode's panel; with it hidden, neither.
   */
  predicate PanelsAgree(mode: AppMode, visible: bool, lyricsShown: bool, auraShown: bool) {
    lyricsShown == (visible && mode == Lyrics) && auraShown == (visible && mode == Aura)
  }

  /** Never are both panels on screen, and one is exactly when the window is visible. */
  lemma AtMostOnePanel(mode: AppMode, visible: bool, lyricsShown: bool, auraShown: bool)
    requires PanelsAgree(mode, visible, lyricsShown, auraShown)
    ensures !(lyricsShown && auraShown)
    ensures lyricsShown || auraShown <==> visible
  {
  }

  // ----------------------------------------------------------------- class

  class MenuBarManager {
    var currentMode: AppMode
    var isLyricsLocked: bool
    var isAuraLocked: bool
    var isWindowVisible: bool
    /** The `WindowManager`: panels on screen and click-through flags. */
    var lyricsShown: bool
    var auraShown: bool
    var lyricsClickThrough: bool
    var auraClickThrough: bool
    /** The `UserDefaults` entry under "AuraLyricsAppMode". */
    var stored: Option<string>
    /** The menu installed on the status item. */
    var menu: seq<MenuEntry>

    /**
     * What holds once `setup` has run: the panels agree with the mode and
     * visibility, each click-through flag equals its lock, the stored entry
     * is the current mode, and the installed menu is that of the state.
     */
    predicate Valid()
      reads this
    {
      && PanelsAgree(currentMode, isWindowVisible, lyricsShown, auraShown)
      && lyricsClickThrough == isLyricsLocked && auraClickThrough == isAuraLocked
      && stored == Some(RawValue(currentMode))
      && menu == Menu(currentMode, isWindowVisible, isLyricsLocked, isAuraLocked)
    }

    /**
     * The shared instance before `setup`, with the windows just created
     * (off screen, not click-through) and `saved` in the defaults.
     */
    constructor(saved: Option<string>)
      ensures currentMode == Lyrics && !isLyricsLocked && !isAuraLocked && isWindowVisible
      ensures !lyricsShown && !auraShown && !lyricsClickThrough && !auraClickThrough
      ensures stored == saved && menu == []
    {
      currentMode := Lyrics;
      isLyricsLocked := false;
      isAuraLocked := false;
      isWindowVisible := true;
      lyricsShown := false;
      auraShown := false;
      lyricsClickThrough := false;
      auraClickThrough := false;
      stored := saved;
      menu := [];
    }

    /** `setup`: restore the saved mode, show its window, build the menu. */
    method Setup()
      requires lyricsClickThrough == isLyricsLocked && auraClickThrough == isAuraLocked
      modifies this
      ensures currentMode == RestoredMode(old(stored)) && isWindowVisible
      ensures isLyricsLocked == old(isLyricsLocked) && isAuraLocked == old(isAuraLocked)
      ensures Valid()
    {
      var saved := if stored.Some? then FromRawValue(stored.value) else None;
      if saved.Some? {
        currentMode := saved.value;
      } else {
        currentMode := Lyrics;
      }
      ApplyMode(currentMode);
      UpdateMenu();
    }

    /** `applyMode`: make the window visible showing exactly `mode`'s panel, and save the mode. */
    method ApplyMode(mode: AppMode)
      modifies this
      ensures isWindowVisible && PanelsAgree(mode, true, lyricsShown, auraShown)
      ensures stored == Some(RawValue(mode))
      ensures currentMode == old(currentMode) && menu == old(menu)
      ensures isLyricsLocked == old(isLyricsLocked) && isAuraLocked == old(isAuraLocked)
      ensures lyricsClickThrough == old(lyricsClickThrough) && auraClickThrough == old(auraClickThrough)
    {
      isWindowVisible := true;
      match mode {
        case Lyrics =>
          auraShown := false;
          lyricsShown := true;
        case Aura =>
          lyricsShown := false;
          auraShown := true;
      }
      stored := Some(RawValue(mode));
    }

    /** `updateMenu`. */
    method UpdateMenu()
      modifies this
      ensures menu == Menu(currentMode, isWindowVisible, isLyricsLocked, isAuraLocked)
      ensures currentMode == old(currentMode) && isWindowVisible == old(isWindowVisible)
      ensures isLyricsLocked == old(isLyricsLocked) && isAuraLocked == old(isAuraLocked)
      ensures lyricsShown == old(lyricsShown) && auraShown == old(auraShown)
      ensures lyricsClickThrough == old(lyricsClickThrough) && auraClickThrough == old(auraClickThrough)
      ensures stored == old(stored)
    {
      menu := Menu(currentMode, isWindowVisible, isLyricsLocked, isAuraLocked);
    }

    /** `hideWindows`: hide both panels; the mode is kept. */
    method HideWindows()
      requires Valid()
      modifies this
      ensures !isWindowVisible && !lyricsShown && !auraShown
      ensures currentMode == old(currentMode) && stored == old(stored)
      ensures isLyricsLocked == old(isLyricsLocked) && isAuraLocked == old(isAuraLocked)
      ensures Valid()
    {
      isWindowVisible := false;
      lyricsShown := false;
      auraShown := false;
      UpdateMenu();
    }

    /** `showCurrentWindow`: re-apply the current mode. */
    method ShowCurrentWindow()
      requires Valid()
      modifies this
      ensures isWindowVisible && currentMode == old(currentMode)
      ensures isLyricsLocked == old(isLyricsLocked) && isAuraLocked == old(isAuraLocked)
      ensures Valid()
    {
      ApplyMode(currentMode);
      UpdateMenu();
    }

    /** `switchToAuraMode`. */
    method SwitchToAuraMode()
      requires Valid()
      modifies this
      ensures currentMode == Aura && isWindowVisible && auraShown && !lyricsShown
      ensures isLyricsLocked == old(isLyricsLocked) && isAuraLocked == old(isAuraLocked)
      ensures Valid()
    {
      currentMode := Aura;
      ApplyMode(Aura);
      UpdateMenu();
    }

    /** `switchToLyricsMode`. */
    method SwitchToLyricsMode()
      requires Valid()
      modifies this
      ensures currentMode == Lyrics && isWindowVisible && lyricsShown && !auraShown
      ensures isLyricsLocked == old(isLyricsLocked) && isAuraLocked == old(isAuraLocked)
      ensures Valid()
    {
      currentMode := Lyrics;
      ApplyMode(Lyrics);
      UpdateMenu();
    }

    /** `toggleLockLyrics`: flip the lyrics lock and make the lyrics panel follow it. */
    method ToggleLockLyrics()
      requires Valid()
      modifies this
      ensures isLyricsLocked == !old(isLyricsLocked) && lyricsClickThrough == isLyricsLocked
      ensures isAuraLocked == old(isAuraLocked) && auraClickThrough == old(auraClickThrough)
      ensures currentMode == old(currentMode) && isWindowVisible == old(isWindowVisible)
      ensures lyricsShown == old(lyricsShown) && auraShown == old(auraShown) && stored == old(stored)
      ensures Valid()
    {
      isLyricsLocked := !isLyricsLocked;
      lyricsClickThrough := isLyricsLocked;
      UpdateMenu();
    }

    /** `toggleLockAura`: flip the Aura lock and make the Aura panel follow it. */
    method ToggleLockAura()
      requires Valid()
      modifies this
      ensures isAuraLocked == !old(isAuraLocked) && auraClickThrough == isAuraLocked
      ensures isLyricsLocked == old(isLyricsLocked) && lyricsClickThrough == old(lyricsClickThrough)
      ensures currentMode == old(currentMode) && isWindowVisible == old(isWindowVisible)
      ensures lyricsShown == old(lyricsShown) && auraShown == old(auraShown) && stored == old(stored)
      ensures Valid()
    {
      isAuraLocked := !isAuraLocked;
      auraClickThrough := isAuraLocked;
      UpdateMenu();
    }
  }
}
