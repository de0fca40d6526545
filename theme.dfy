/**
 * The theme controller's pure part: the initial theme read from storage, the
 * toggle, and what the current theme implies for the editors and the two icons.
 * Themes are the strings the page stores and compares ("dark", "light", or
 * whatever a previous session left under the storage key).
 */
module Theme {
  import opened Wrappers

  /** The key the theme is stored under in browser storage. */
  const StorageKey: string := "theme"
  const Dark: string := "dark"
  const Light: string := "light"

  /** Editor theme identifiers from the page's configuration object. */
  const DarkEditorTheme: string := "ace/theme/tomorrow_night_eighties"
  const LightEditorTheme: string := "ace/theme/chrome"

  /** CSS display values of an icon. */
  const Shown: string := "block"
  const Hidden: string := "none"

  /** `getItem`: the stored string, or nothing when the key was never set. */
  function GetItem(storage: map<string, string>, key: string): Option<string>
  {
    if key in storage then Some(storage[key]) else None
  }

  /** The theme at page load: the stored value unless it is missing or empty. */
  function InitialTheme(stored: Option<string>): (theme: string)
    ensures theme != ""
    ensures stored.Some? && stored.value != "" ==> theme == stored.value
    ensures stored.None? || stored.value == "" ==> theme == Dark
  {
    match stored
    case Some(s) => if s != "" then s else Dark
    case None => Dark
  }

  /** The toggle button's new theme: light after dark, dark after anything else. */
  function Toggled(theme: string): (next: string)
    ensures next != theme
    ensures next == Light <==> theme == Dark
    ensures next == Dark <==> theme != Dark
  {
    if theme == Dark then Light else Dark
  }

  /** The theme identifier every editor receives. */
  function EditorTheme(theme: string): (id: string)
    ensures id == DarkEditorTheme <==> theme == Dark
    ensures id == LightEditorTheme <==> theme != Dark
  {
    if theme == Dark then DarkEditorTheme else LightEditorTheme
  }

  /** Display of the sun icon. */
  function SunDisplay(theme: string): (d: string)
    ensures d == Shown <==> theme == Dark
  {
    if theme == Dark then Shown else Hidden
  }

  /** Display of the moon icon. */
  function MoonDisplay(theme: string): (d: string)
    ensures d == Shown <==> theme != Dark
  {
    if theme == Dark then Hidden else Shown
  }

  /** Exactly one of the two icons is shown, whatever the theme. */
  lemma ExactlyOneIcon(theme: string)
    ensures (SunDisplay(theme) == Shown) != (MoonDisplay(theme) == Shown)
    ensures SunDisplay(theme) in {Shown, Hidden} && MoonDisplay(theme) in {Shown, Hidden}
  {
  }

  /**
   * Toggling twice gives back the theme exactly when it was "dark" or "light";
   * any other stored theme comes back as "light".
   */
  lemma ToggleTwice(theme: string)
    ensures Toggled(Toggled(theme)) == theme <==> theme == Dark || theme == Light
    ensures Toggled(Toggled(theme)) == if theme == Dark then Dark else Light
  {
  }

  /** After at least one toggle the theme is always "dark" or "light". */
  lemma {:induction false} ToggledIsDarkOrLight(theme: string, n: nat)
    requires n > 0
    ensures ToggleN(theme, n) == Dark || ToggleN(theme, n) == Light
    ensures ToggleN(theme, n) == if n % 2 == 0 then Toggled(Toggled(theme)) else Toggled(theme)
  {
    if n == 2 {
      assert ToggleN(theme, 1) == Toggled(theme);
      ToggleTwice(theme);
    } else if n > 2 {
      ToggledIsDarkOrLight(theme, n - 2);
      ToggleTwice(ToggleN(theme, n - 2));
      assert ToggleN(theme, n) == Toggled(Toggled(ToggleN(theme, n - 2)));
    }
  }

  /** The theme after `n` clicks of the toggle button. */
  function ToggleN(theme: string, n: nat): string
  {
    if n == 0 then theme else Toggled(ToggleN(theme, n - 1))
  }
}
