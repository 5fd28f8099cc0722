/** The theme hook of frontend/components/theme-provider.tsx over the
    `next-themes` value, which is `None` while the library provides none. */
module Theme {
  import opened Common

  /** `defaultTheme="dark"` of the provider. */
  const DefaultTheme: string := "dark"

  /** `theme || "dark"`: the theme the hook reports. */
  function ReportedTheme(theme: Option<string>): (t: string)
    ensures theme.Some? && theme.value != "" ==> t == theme.value
    ensures !(theme.Some? && theme.value != "") ==> t == DefaultTheme
    ensures t != ""
  {
    if theme.Some? && theme.value != "" then theme.value else DefaultTheme
  }

  /** The value `toggleTheme` hands to `setTheme`: it tests the library's
      value, not the reported one. */
  function ToggleTheme(theme: Option<string>): (t: string)
    ensures t == "light" <==> theme == Some("dark")
    ensures t == "light" || t == "dark"
  {
    if theme == Some("dark") then "light" else "dark"
  }

  /** Two toggles from "dark" or "light" restore it. */
  lemma ToggleTwice(t: string)
    requires t == "dark" || t == "light"
    ensures ToggleTheme(Some(t)) != t
    ensures ToggleTheme(Some(ToggleTheme(Some(t)))) == t
  {
  }

  /** While the library provides no theme (or "system"), the hook reports
      something other than "light" and the toggle sets "dark". */
  lemma UnsetThemeToggleSetsDark(theme: Option<string>)
    requires theme.None? || theme == Some("") || theme == Some("system")
    ensures ReportedTheme(theme) != "light" && ToggleTheme(theme) == DefaultTheme
  {
  }
}
