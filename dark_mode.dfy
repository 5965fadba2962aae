/**
 * The dark-mode switches. Each switch keeps its own `isDark` and `mounted`
 * flags; the page's root `dark` class and the stored "theme" entry are
 * shared by every switch on the page. Mounting reads the stored theme and
 * the system preference; a click flips `isDark` and writes both the class
 * and the stored theme. Two variants exist: the sliding toggle, whose
 * mount sets or clears the class, and the icon button, whose mount only
 * ever sets it.
 */
module DarkMode {
  import opened Wrappers

  datatype Variant = Toggle | IconButton

  /** The value a click stores under "theme". */
  function ThemeName(dark: bool): (name: string)
    ensures name == "dark" || name == "light"
    ensures name == "dark" <==> dark
  {
    if dark then "dark" else "light"
  }

  /**
   * `savedTheme === "dark" || (!savedTheme && systemPrefersDark)`, where a
   * missing entry reads as `null` (`None`).
   */
  function ShouldBeDark(savedTheme: Option<string>, systemPrefersDark: bool): (dark: bool)
    ensures savedTheme == Some("dark") ==> dark
    ensures savedTheme.Some? && savedTheme.value != "" && savedTheme.value != "dark" ==> !dark
    ensures savedTheme.None? || savedTheme == Some("") ==> dark == systemPrefersDark
  {
    savedTheme == Some("dark") || ((savedTheme.None? || savedTheme.value == "") && systemPrefersDark)
  }

  /** One switch's own state. */
  datatype Switch = Switch(isDark: bool, mounted: bool)

  /** What the switches share: the root `dark` class, the stored theme and the system preference. */
  datatype PageState = PageState(rootDark: bool, storedTheme: Option<string>, systemPrefersDark: bool)

  /** The switch shows what the page shows, and a reload would restore it. */
  predicate InStep(s: Switch, p: PageState) {
    p.rootDark == s.isDark && ShouldBeDark(p.storedTheme, p.systemPrefersDark) == s.isDark
  }

  /** A switch's mount effect. */
  function Mounted(v: Variant, s: Switch, p: PageState): (r: (Switch, PageState))
    ensures r.0.mounted && r.0.isDark == ShouldBeDark(p.storedTheme, p.systemPrefersDark)
    ensures r.1.storedTheme == p.storedTheme && r.1.systemPrefersDark == p.systemPrefersDark
    ensures v == Toggle ==> InStep(r.0, r.1)
    ensures v == IconButton ==> r.1.rootDark == (p.rootDark || r.0.isDark)
  {
    var dark := ShouldBeDark(p.storedTheme, p.systemPrefersDark);
    var rootDark := if dark then true else if v == Toggle then false else p.rootDark;
    (Switch(dark, true), p.(rootDark := rootDark))
  }

  /** `toggleDarkMode`, the same in both variants. */
  function Toggled(s: Switch, p: PageState): (r: (Switch, PageState))
    ensures r.0.isDark == !s.isDark && r.0.mounted == s.mounted
    ensures InStep(r.0, r.1)
    ensures r.1.storedTheme == Some(ThemeName(r.0.isDark)) && r.1.systemPrefersDark == p.systemPrefersDark
  {
    var dark := !s.isDark;
    (s.(isDark := dark), p.(rootDark := dark, storedTheme := Some(ThemeName(dark))))
  }

  /** Two clicks give back the original mode and class, and leave the matching theme stored. */
  lemma ToggleTwice(s: Switch, p: PageState)
    ensures var r := Toggled(Toggled(s, p).0, Toggled(s, p).1);
      && r.0 == s
      && r.1.rootDark == s.isDark
      && r.1.storedTheme == Some(ThemeName(s.isDark))
  {
  }

  /**
   * A reload after a click shows the mode the user picked, whatever the
   * system preference and whichever variant mounts.
   */
  lemma ReloadRestoresChoice(v: Variant, s: Switch, p: PageState)
    ensures var t := Toggled(s, p);
      var reloaded := PageState(false, t.1.storedTheme, t.1.systemPrefersDark);
      Mounted(v, Switch(false, false), reloaded).0.isDark == t.0.isDark
  {
  }

  /**
   * The icon button's mount can leave the switch out of step with the page:
   * with the class already set, a stored "light" theme shows the light icon
   * while the page stays dark.
   */
  lemma IconButtonMountMayLeaveClass()
    ensures var r := Mounted(IconButton, Switch(false, false), PageState(true, Some("light"), false));
      !r.0.isDark && r.1.rootDark && !InStep(r.0, r.1)
  {
  }

  /** The icon button's mount is in step whenever the class was not set before it. */
  lemma IconButtonMountInStep(s: Switch, p: PageState)
    requires !p.rootDark
    ensures var r := Mounted(IconButton, s, p); InStep(r.0, r.1)
  {
  }

  /**
   * Two switches on one page (the header shows one in its desktop bar and
   * one in its mobile menu) each keep their own `isDark`: after one is
   * clicked, the first click on the other writes the mode the page already
   * shows, so the page does not change.
   */
  lemma SecondSwitchFirstClick(a: Switch, b: Switch, p: PageState)
    requires InStep(a, p) && InStep(b, p)
    ensures var afterA := Toggled(a, p);
      var afterB := Toggled(b, afterA.1);
      && afterA.1.rootDark != p.rootDark
      && afterB.1.rootDark == afterA.1.rootDark
      && afterB.1.storedTheme == afterA.1.storedTheme
  {
  }

  /** What a switch renders: a placeholder until it has mounted. */
  datatype View = Placeholder | Shown(dark: bool)

  function ViewOf(s: Switch): (v: View)
    ensures v == Placeholder <==> !s.mounted
    ensures v.Shown? ==> v.dark == s.isDark
  {
    if s.mounted then Shown(s.isDark) else Placeholder
  }

  /** The shared document root and local storage. */
  class Browser {
    var rootDark: bool
    var storedTheme: Option<string>
    const systemPrefersDark: bool

    constructor (rootDark: bool, storedTheme: Option<string>, systemPrefersDark: bool)
      ensures Page() == PageState(rootDark, storedTheme, systemPrefersDark)
    {
      this.rootDark := rootDark;
      this.storedTheme := storedTheme;
      this.systemPrefersDark := systemPrefersDark;
    }

    function Page(): PageState
      reads this
    {
      PageState(rootDark, storedTheme, systemPrefersDark)
    }
  }

  /** One dark-mode switch, bound to the page's browser state. */
  class ThemeSwitch {
    const variant: Variant
    const browser: Browser
    var isDark: bool
    var mounted: bool

    /** The first render: light and not yet mounted, so only the placeholder shows. */
    constructor (variant: Variant, browser: Browser)
      ensures this.variant == variant && this.browser == browser
      ensures State() == Switch(false, false) && ViewOf(State()) == Placeholder
    {
      this.variant := variant;
      this.browser := browser;
      isDark := false;
      mounted := false;
    }

    function State(): Switch
      reads this
    {
      Switch(isDark, mounted)
    }

    /** The mount effect: reads the stored theme and the system preference, then sets (or clears) the class. */
    method Mount()
      modifies this, browser
      ensures (State(), browser.Page()) == Mounted(variant, old(State()), old(browser.Page()))
    {
      mounted := true;
      var savedTheme := browser.storedTheme;
      var shouldBeDark := ShouldBeDark(savedTheme, browser.systemPrefersDark);
      isDark := shouldBeDark;
      if shouldBeDark {
        browser.rootDark := true;
      } else if variant == Toggle {
        browser.rootDark := false;
      }
    }

    /** `toggleDarkMode`: flips the mode, then writes the class and the stored theme. */
    method ToggleDarkMode()
      modifies this, browser
      ensures (State(), browser.Page()) == Toggled(old(State()), old(browser.Page()))
    {
      var newIsDark := !isDark;
      isDark := newIsDark;
      if newIsDark {
        browser.rootDark := true;
        browser.storedTheme := Some("dark");
      } else {
        browser.rootDark := false;
        browser.storedTheme := Some("light");
      }
    }
  }
}
