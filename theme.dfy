/** The light/dark theme helper (`lib/theme.js`): the `data-theme` attribute,
    its copy in storage under 'ui.theme', and one 'themechange' event per
    application. */
module Theme {
  import opened Dom

  const ThemeKey := "ui.theme"

  /** The theme `applyTheme` settles on: 'dark' only for 'dark'. */
  function Normalised(theme: string): (r: string)
    ensures r == "dark" <==> theme == "dark"
    ensures r == "dark" || r == "light"
  {
    if theme == "dark" then "dark" else "light"
  }

  /** The theme `toggleTheme` asks for: 'dark' from 'light', 'light' from
      anything else. */
  function Opposite(current: string): (r: string)
    ensures r == "dark" <==> current == "light"
    ensures r == "dark" || r == "light"
  {
    if current == "light" then "dark" else "light"
  }

  /** `getTheme`: the attribute, else storage, else 'light'. */
  function CurrentTheme(dataset: map<string, string>, storage: map<string, string>): (r: string)
    ensures Set(dataset, "theme") ==> r == dataset["theme"]
    ensures !Set(dataset, "theme") && Set(storage, ThemeKey) ==> r == storage[ThemeKey]
    ensures !Set(dataset, "theme") && !Set(storage, ThemeKey) ==> r == "light"
  {
    FirstSet(dataset, "theme", storage, ThemeKey, "light")
  }

  /** Toggling twice alternates: from 'light' it comes back to 'light', from
      anything else it ends on 'dark', and the two steps always differ. */
  lemma ToggleAlternates(current: string)
    ensures var t1 := Normalised(Opposite(current));
            var t2 := Normalised(Opposite(t1));
            t1 != t2 && (current == "light" ==> t2 == "light") && (current != "light" ==> t2 == "dark")
  {
  }

  method GetTheme(b: Browser) returns (theme: string)
    ensures theme == CurrentTheme(b.dataset, b.storage)
  {
    if "theme" in b.dataset && b.dataset["theme"] != "" {
      theme := b.dataset["theme"];
    } else if ThemeKey in b.storage && b.storage[ThemeKey] != "" {
      theme := b.storage[ThemeKey];
    } else {
      theme := "light";
    }
  }

  /** `applyTheme`: the normalised theme is written to the attribute (when
      it differs) and to storage, announced once, and returned. */
  method ApplyTheme(b: Browser, theme: string) returns (next: string)
    modifies b
    ensures next == Normalised(theme)
    ensures b.dataset == old(b.dataset)["theme" := next]
    ensures b.storage == old(b.storage)[ThemeKey := next]
    ensures b.events == old(b.events) + [ThemeChange(next)]
    ensures b.style == old(b.style)
    ensures CurrentTheme(b.dataset, b.storage) == next
  {
    next := if theme == "dark" then "dark" else "light";
    if !("theme" in b.dataset && b.dataset["theme"] == next) {
      b.dataset := b.dataset["theme" := next];
    }
    b.storage := b.storage[ThemeKey := next];
    b.events := b.events + [ThemeChange(next)];
  }

  method SetTheme(b: Browser, theme: string) returns (next: string)
    modifies b
    ensures next == Normalised(theme)
    ensures b.dataset == old(b.dataset)["theme" := next]
    ensures b.storage == old(b.storage)[ThemeKey := next]
    ensures b.events == old(b.events) + [ThemeChange(next)]
    ensures b.style == old(b.style)
  {
    next := ApplyTheme(b, theme);
  }

  /** `toggleTheme`: applies the opposite of the current theme. */
  method ToggleTheme(b: Browser) returns (next: string)
    modifies b
    ensures next == Normalised(Opposite(CurrentTheme(old(b.dataset), old(b.storage))))
    ensures b.dataset == old(b.dataset)["theme" := next]
    ensures b.storage == old(b.storage)[ThemeKey := next]
    ensures b.events == old(b.events) + [ThemeChange(next)]
    ensures b.style == old(b.style)
  {
    var current := GetTheme(b);
    next := ApplyTheme(b, if current == "light" then "dark" else "light");
  }

  /** `initTheme`: applies the stored theme, or 'light'. */
  method InitTheme(b: Browser) returns (next: string)
    modifies b
    ensures next == Normalised(if Set(old(b.storage), ThemeKey) then old(b.storage)[ThemeKey] else "light")
    ensures b.dataset == old(b.dataset)["theme" := next]
    ensures b.storage == old(b.storage)[ThemeKey := next]
    ensures b.events == old(b.events) + [ThemeChange(next)]
    ensures b.style == old(b.style)
  {
    var stored := if ThemeKey in b.storage && b.storage[ThemeKey] != "" then b.storage[ThemeKey] else "light";
    next := ApplyTheme(b, stored);
  }
}
