/** The application root: the theme provider around the session provider,
    both over the page's single `localStorage`. */
module App {
  import opened Wrappers
  import opened Storage
  import opened Theme
  import opened Auth

  /** A logout clears the storage the theme provider writes to as well: the
      theme stays on screen, but it is no longer stored, so the next reload
      falls back to the system preference. */
  method LogoutForgetsTheme(theme: ThemeProvider, auth: AuthProvider, reply: LogoutReply, prefersDark: bool)
      returns (r: Result<string, string>)
    requires theme.storage == auth.storage
    modifies auth, auth.storage
    ensures theme.theme == old(theme.theme) && theme.rootClasses == old(theme.rootClasses)
    ensures ThemeKey !in theme.storage.items && !theme.Valid()
    ensures InitialTheme(Get(theme.storage.items, ThemeKey), prefersDark) == (if prefersDark then Dark else Light)
  {
    r := auth.Logout(reply);
  }

  /** A login keeps the stored theme: the session writes only its own keys. */
  method LoginKeepsTheme(theme: ThemeProvider, auth: AuthProvider, email: string, reply: LoginReply, now: int)
      returns (r: Result<(), string>)
    requires theme.storage == auth.storage && theme.Valid()
    modifies auth, auth.storage
    ensures theme.Valid()
  {
    ghost var before := theme.storage.items;
    r := auth.Login(email, reply, now);
    assert theme.storage.items[ThemeKey] == before[ThemeKey];
  }
}
