/** The light/dark theme flag and its copy in browser storage under the key `theme`. */
module ThemeContext {
  import opened Builtins

  /** The initial flag read from storage: only the exact string "dark" means dark; a missing or any
      other value means light. */
  function Decode(stored: Option<string>): bool
  {
    stored == Some("dark")
  }

  /** The string written to storage after every change of the flag. */
  function Encode(dark: bool): (s: string)
    ensures s == "dark" || s == "light"
    ensures Decode(Some(s)) == dark
  {
    if dark then "dark" else "light"
  }

  /** Reading back what was written gives the flag; writing back what was read gives the stored
      value only when that value was "dark" or "light". */
  lemma StorageRoundTrip(dark: bool, stored: Option<string>)
    ensures Decode(Some(Encode(dark))) == dark
    ensures Decode(stored) <==> stored == Some(Encode(true))
    ensures Some(Encode(Decode(stored))) == stored <==> stored == Some("dark") || stored == Some("light")
  {
  }

  /** The provider's state and the storage cell it writes. */
  class ThemeProvider {
    var isDarkMode: bool
    var stored: Option<string>

    /** Storage holds the encoding of the flag, as the effect leaves it after every render. */
    ghost predicate Valid()
      reads this
    {
      stored == Some(Encode(isDarkMode))
    }

    /** Mounting: the flag is decoded from storage, and the effect then writes it back. */
    constructor (initiallyStored: Option<string>)
      ensures isDarkMode == Decode(initiallyStored)
      ensures Valid()
    {
      var dark := Decode(initiallyStored);
      isDarkMode := dark;
      stored := Some(Encode(dark));
    }

    /** `toggleTheme`, followed by the storage effect. */
    method ToggleTheme()
      requires Valid()
      modifies this
      ensures isDarkMode == !old(isDarkMode)
      ensures Valid()
    {
      isDarkMode := !isDarkMode;
      stored := Some(Encode(isDarkMode));
    }
  }

  /** Two toggles bring back both the flag and the stored string. */
  method ToggleTwice(p: ThemeProvider)
    requires p.Valid()
    modifies p
    ensures p.isDarkMode == old(p.isDarkMode) && p.stored == old(p.stored)
  {
    p.ToggleTheme();
    p.ToggleTheme();
  }

  /** `useTheme`: the context, or the error it throws outside a provider. */
  function UseTheme(context: Option<ThemeProvider>): (r: Result<ThemeProvider, string>)
    ensures r.Err? <==> context.None?
    ensures r.Err? ==> r.error == "useTheme must be used within a ThemeProvider"
    ensures r.Ok? ==> r.value == context.value
  {
    if context.None? then Err("useTheme must be used within a ThemeProvider") else Ok(context.value)
  }
}
