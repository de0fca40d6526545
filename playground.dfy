/**
 * The page's session state and the handlers that change it: the three editor
 * buffers, browser storage, the current theme and everything derived from it,
 * the navigation buttons and panels, the resize requests sent to the editors,
 * and the preview frame's document.
 */
module Playground {
  import Compiler
  import Theme
  import Panels

  class Session {
    /** Contents of the markup, style and script editors. */
    var html: string
    var css: string
    var js: string

    /** Browser storage; only the theme key is used. */
    var storage: map<string, string>

    /** `currentTheme`, and the `data-theme` attribute of the root element. */
    var theme: string
    var dataTheme: string

    /** The theme identifier last given to each editor, in the order markup, style, script. */
    var editorThemes: seq<string>

    /** Display values of the sun and moon icons. */
    var sunDisplay: string
    var moonDisplay: string

    /** Active class of each navigation button; display of each panel (true is "block"). */
    var buttons: array<bool>
    var panels: array<bool>

    /** The index of the last switch. */
    ghost var selected: int

    /** Resize requests sent to the editors, oldest first. */
    var resizes: seq<Panels.Editor>

    /** The preview frame's document. */
    var preview: string

    /** The editors and the icons show the current theme. */
    ghost predicate ThemeApplied()
      reads this`theme, this`dataTheme, this`editorThemes, this`sunDisplay, this`moonDisplay
    {
      var id := Theme.EditorTheme(theme);
      dataTheme == theme && editorThemes == [id, id, id]
      && sunDisplay == Theme.SunDisplay(theme) && moonDisplay == Theme.MoonDisplay(theme)
    }

    /** Buttons and panels both show the last switch. */
    ghost predicate PanelsShown()
      reads this`buttons, this`panels, this`selected, buttons, panels
    {
      buttons != panels
      && buttons[..] == Panels.Selection(buttons.Length, selected)
      && panels[..] == Panels.Selection(panels.Length, selected)
    }

    ghost predicate Valid()
      reads this, buttons, panels
    {
      ThemeApplied() && PanelsShown()
    }

    /**
     * Page load: the editors receive their initial text, the theme is read
     * from storage and applied, and the first panel is selected.
     */
    constructor (stored: map<string, string>, html0: string, css0: string, js0: string,
                 buttonCount: nat, panelCount: nat)
      ensures Valid() && fresh(buttons) && fresh(panels)
      ensures html == html0 && css == css0 && js == js0
      ensures storage == stored
      ensures theme == Theme.InitialTheme(Theme.GetItem(stored, Theme.StorageKey))
      ensures buttons.Length == buttonCount && panels.Length == panelCount && selected == 0
      ensures resizes == [Panels.Html] && preview == ""
    {
      html, css, js := html0, css0, js0;
      storage := stored;
      theme := Theme.InitialTheme(Theme.GetItem(stored, Theme.StorageKey));
      dataTheme := theme;
      editorThemes, sunDisplay, moonDisplay := [], "", "";
      buttons := new bool[buttonCount](_ => false);
      panels := new bool[panelCount](_ => false);
      selected := -1;
      resizes := [];
      preview := "";
      new;
      UpdateEditorThemes();
      SwitchPanel(0);
    }

    /** `updateEditorThemes`: gives every editor and both icons the current theme. */
    method UpdateEditorThemes()
      requires dataTheme == theme
      modifies this`editorThemes, this`sunDisplay, this`moonDisplay
      ensures ThemeApplied()
    {
      var id := Theme.EditorTheme(theme);
      editorThemes := [id, id, id];
      sunDisplay := Theme.SunDisplay(theme);
      moonDisplay := Theme.MoonDisplay(theme);
    }

    /** The theme button: flips the theme, stores it, and applies it. */
    method ToggleTheme()
      requires Valid()
      modifies this`theme, this`dataTheme, this`storage, this`editorThemes, this`sunDisplay, this`moonDisplay
      ensures Valid()
      ensures theme == Theme.Toggled(old(theme))
      ensures storage == old(storage)[Theme.StorageKey := theme]
    {
      theme := Theme.Toggled(theme);
      dataTheme := theme;
      storage := storage[Theme.StorageKey := theme];
      UpdateEditorThemes();
    }

    /**
     * `switchPanel`: activates the button and displays the panel at `index`,
     * deactivates and hides all others, and asks the editor on that panel, if
     * any, to resize.
     */
    method SwitchPanel(index: int)
      requires Valid()
      modifies buttons, panels, this`selected, this`resizes
      ensures Valid() && selected == index
      ensures buttons[..] == Panels.Selection(buttons.Length, index)
      ensures panels[..] == Panels.Selection(panels.Length, index)
      ensures resizes == old(resizes) + Panels.Resized(index)
    {
      var i := 0;
      while i < buttons.Length
        invariant 0 <= i <= buttons.Length
        invariant forall k :: 0 <= k < i ==> buttons[k] == (k == index)
        modifies buttons
      {
        buttons[i] := i == index;
        i := i + 1;
      }
      i := 0;
      while i < panels.Length
        invariant 0 <= i <= panels.Length
        invariant forall k :: 0 <= k < i ==> panels[k] == (k == index)
        modifies panels
      {
        panels[i] := i == index;
        i := i + 1;
      }
      if index == 0 { resizes := resizes + [Panels.Html]; }
      if index == 1 { resizes := resizes + [Panels.Css]; }
      if index == 2 { resizes := resizes + [Panels.Js]; }
      selected := index;
    }

    /** `compiler`: replaces the preview with the document built from the three buffers. */
    method Compile()
      modifies this`preview
      ensures preview == Compiler.Document(html, css, js)
    {
      preview := Compiler.Document(html, css, js);
    }

    /** `runEdit`: a switch to `index` followed by a compile. */
    method RunEdit(index: int)
      requires Valid()
      modifies buttons, panels, this`selected, this`resizes, this`preview
      ensures Valid() && selected == index
      ensures resizes == old(resizes) + Panels.Resized(index)
      ensures preview == Compiler.Document(html, css, js)
    {
      SwitchPanel(index);
      Compile();
    }

    /**
     * The key handler: Ctrl+Enter switches to the preview and compiles; any
     * other key changes nothing.
     */
    method KeyDown(ctrlKey: bool, key: string)
      requires Valid()
      modifies buttons, panels, this`selected, this`resizes, this`preview
      ensures Valid()
      ensures ctrlKey && key == "Enter" ==>
        selected == Panels.PreviewPanel && resizes == old(resizes)
        && preview == Compiler.Document(html, css, js)
      ensures !(ctrlKey && key == "Enter") ==>
        selected == old(selected) && resizes == old(resizes) && preview == old(preview)
        && buttons[..] == old(buttons[..]) && panels[..] == old(panels[..])
    {
      if ctrlKey && key == "Enter" {
        RunEdit(Panels.PreviewPanel);
      }
    }

    /**
     * Pressing Ctrl+Enter twice without edits leaves the same preview as
     * pressing it once, with only the preview panel displayed.
     */
    method ShortcutTwice()
      requires Valid() && panels.Length == 4
      modifies buttons, panels, this`selected, this`resizes, this`preview
      ensures Valid() && preview == Compiler.Document(html, css, js)
      ensures panels[Panels.PreviewPanel] && Panels.CountTrue(panels[..]) == 1
    {
      KeyDown(true, "Enter");
      var first := preview;
      KeyDown(true, "Enter");
      assert preview == first;
      Panels.ExactlyOneSelected(panels.Length, Panels.PreviewPanel);
    }
  }

  /**
   * In every valid session whose last switch was in range, exactly one button
   * is active and exactly one panel displayed, and they share the index.
   */
  lemma OneActivePanel(s: Session)
    requires s.Valid() && 0 <= s.selected < s.buttons.Length && s.selected < s.panels.Length
    ensures Panels.CountTrue(s.buttons[..]) == 1 && Panels.CountTrue(s.panels[..]) == 1
    ensures s.buttons[s.selected] && s.panels[s.selected]
    ensures forall k :: 0 <= k < s.buttons.Length && k < s.panels.Length ==> s.buttons[k] == s.panels[k]
  {
    Panels.ExactlyOneSelected(s.buttons.Length, s.selected);
    Panels.ExactlyOneSelected(s.panels.Length, s.selected);
  }
}
