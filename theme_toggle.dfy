/**
 * The theme button (components/layout/theme-toggle.tsx): each click moves
 * light to dark, dark to system and anything else to light; before the
 * component has mounted the button is disabled.
 */
module ThemeToggle {
  import opened Wrappers

  /** `cycleTheme`; the current theme is a string, or undefined before the theme library knows it. */
  function CycleTheme(theme: Option<string>): (next: string)
    ensures next in {"light", "dark", "system"}
    ensures theme == Some("light") ==> next == "dark"
    ensures theme == Some("dark") ==> next == "system"
    ensures theme != Some("light") && theme != Some("dark") ==> next == "light"
  {
    if theme == Some("light") then "dark"
    else if theme == Some("dark") then "system"
    else "light"
  }

  function Cycle(theme: Option<string>, clicks: nat): string
    decreases clicks
  {
    if clicks == 0 then (if theme.Some? then theme.value else "")
    else Cycle(Some(CycleTheme(theme)), clicks - 1)
  }

  /** Three clicks bring any of the three themes back to itself. */
  lemma PeriodThree(theme: string)
    requires theme in {"light", "dark", "system"}
    ensures Cycle(Some(theme), 3) == theme
  {
  }

  /** Whatever the starting theme, after one click the button only ever shows the three themes, in order. */
  lemma {:induction false} CycleOrbit(theme: Option<string>, clicks: nat)
    requires clicks >= 1
    ensures Cycle(theme, clicks) in {"light", "dark", "system"}
    ensures Cycle(theme, clicks + 3) == Cycle(theme, clicks)
    decreases clicks
  {
    var next := CycleTheme(theme);
    if clicks == 1 {
      PeriodThree(next);
      assert Cycle(Some(next), 3) == next;
    } else {
      CycleOrbit(Some(next), clicks - 1);
    }
  }

  datatype Icon = Sun | Moon | Laptop | NoIcon

  function ThemeIcon(theme: Option<string>): (icon: Icon)
    ensures icon == Sun <==> theme == Some("light")
    ensures icon == Moon <==> theme == Some("dark")
    ensures icon == Laptop <==> theme == Some("system")
  {
    if theme == Some("light") then Sun
    else if theme == Some("dark") then Moon
    else if theme == Some("system") then Laptop
    else NoIcon
  }

  class ThemeButton {
    var mounted: bool
    var theme: Option<string>

    constructor(theme: Option<string>)
      ensures !mounted && this.theme == theme
    {
      mounted := false;
      this.theme := theme;
    }

    /** The mount effect, which runs once. */
    method Mount()
      modifies this`mounted
      ensures mounted
    {
      mounted := true;
    }

    predicate Disabled()
      reads this
    {
      !mounted
    }

    /** A click on the disabled placeholder does nothing; otherwise the theme cycles. */
    method Click()
      modifies this`theme
      ensures !old(Disabled()) ==> theme == Some(CycleTheme(old(theme)))
      ensures old(Disabled()) ==> theme == old(theme)
    {
      if !Disabled() {
        theme := Some(CycleTheme(theme));
      }
    }
  }
}
