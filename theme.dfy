/**
 * The persisted light/dark theme toggle (assets/script.js, lines 2-28).
 *
 * The state is the `data-theme` attribute of the document root, the
 * `"theme"` entry of local storage and the glyph shown on the toggle
 * button. An absent attribute or storage entry is `None`.
 */
module Theme {
  import opened Wrappers

  /** The two glyphs the toggle button can show. */
  datatype Glyph = Moon | Sun

  /** The glyph for a theme attribute: the moon exactly when the theme is "light". */
  function GlyphFor(theme: Option<string>): Glyph
  {
    if theme == Some("light") then Moon else Sun
  }

  /**
   * The attribute applied at page load: a stored value is applied only when
   * it is truthy; otherwise the page's own attribute stays.
   */
  function LoadedTheme(pageTheme: Option<string>, stored: Option<string>): Option<string>
  {
    if Truthy(stored) then stored else pageTheme
  }

  /**
   * The theme one click produces from the current attribute. An unset
   * attribute is first forced to "light", so it always yields "dark".
   */
  function Toggled(current: Option<string>): (next: string)
    ensures next == "light" || next == "dark"
    ensures next == "dark" <==> !Truthy(current) || current == Some("light")
    ensures next == "light" <==> Truthy(current) && current != Some("light")
  {
    var normalised := if Truthy(current) then current.value else "light";
    if normalised == "light" then "dark" else "light"
  }

  /** Once a click has been made, every further click flips light and dark. */
  lemma ToggleAlternates(current: Option<string>)
    ensures Toggled(Some(Toggled(current))) != Toggled(current)
    ensures Toggled(Some(Toggled(Some(Toggled(current))))) == Toggled(current)
  {
  }

  /**
   * Round trip through storage: after a click, reloading the page (whatever
   * the page's own attribute) applies exactly the theme the click produced,
   * and shows the same glyph.
   */
  lemma ReloadRestoresToggle(pageTheme: Option<string>, current: Option<string>)
    ensures LoadedTheme(pageTheme, Some(Toggled(current))) == Some(Toggled(current))
    ensures GlyphFor(LoadedTheme(pageTheme, Some(Toggled(current)))) == GlyphFor(Some(Toggled(current)))
  {
  }

  class ThemeToggle {
    /** The `data-theme` attribute of the document root. */
    var theme: Option<string>
    /** The `"theme"` entry of local storage. */
    var stored: Option<string>
    /** The text of the toggle button; `None` when the page has no button. */
    var glyph: Option<Glyph>
    /** Whether the page has a toggle button (the click handler exists only then). */
    const hasButton: bool

    /** The button, when there is one, always shows the glyph of the current theme. */
    ghost predicate Valid()
      reads this
    {
      glyph == if hasButton then Some(GlyphFor(theme)) else None
    }

    /** Page load: apply a truthy stored theme, then set the initial glyph. */
    constructor (pageTheme: Option<string>, storedTheme: Option<string>, hasButton: bool)
      ensures Valid()
      ensures theme == LoadedTheme(pageTheme, storedTheme)
      ensures stored == storedTheme && this.hasButton == hasButton
      ensures hasButton ==> (glyph == Some(Moon) <==> theme == Some("light"))
    {
      stored := storedTheme;
      var applied := pageTheme;
      if Truthy(storedTheme) {
        applied := storedTheme;
      }
      theme := applied;
      this.hasButton := hasButton;
      if hasButton {
        glyph := Some(if applied == Some("light") then Moon else Sun);
      } else {
        glyph := None;
      }
    }

    /** A click on the toggle button. */
    method Click()
      requires Valid() && hasButton
      modifies this
      ensures Valid()
      ensures theme == Some(Toggled(old(theme)))
      ensures stored == theme
      ensures glyph == Some(Moon) <==> theme == Some("light")
    {
      var current := theme;
      if !Truthy(current) {
        theme := Some("light");
      }
      var effective := if Truthy(theme) then theme.value else "dark";
      var newTheme := if effective == "light" then "dark" else "light";
      theme := Some(newTheme);
      stored := Some(newTheme);
      glyph := Some(if newTheme == "light" then Moon else Sun);
    }
  }
}
