/**
 * The top bar: the name shown for the signed-in user, the search box and
 * the notification bell.
 */
module Navbar {
  import opened Wrappers
  import opened Text

  /** The fields of the signed-in user the name is taken from. */
  datatype NavUser = NavUser(fullName: Option<string>, metaName: Option<string>, email: Option<string>)

  datatype NavState = NavState(searchTerm: string, showNotifications: bool)

  const InitialNav := NavState("", false)

  /** `.replace(/^\w/, c => c.toUpperCase())`: a leading ASCII lowercase letter is uppercased. */
  function CapitalizeFirst(s: string): (r: string)
    ensures |r| == |s|
    ensures |s| > 0 ==> r[1..] == s[1..]
    ensures |s| > 0 && 'a' <= s[0] <= 'z' ==> r[0] == (s[0] as int - 32) as char
    ensures |s| > 0 && !('a' <= s[0] <= 'z') ==> r[0] == s[0]
  {
    if |s| > 0 && 'a' <= s[0] <= 'z' then [(s[0] as int - 32) as char] + s[1..] else s
  }

  /** `full_name || name || email.split('@')[0] (capitalised) || 'User'` */
  function DisplayName(u: NavUser): (name: string)
    ensures TruthyString(u.fullName) ==> name == u.fullName.value
    ensures !TruthyString(u.fullName) && TruthyString(u.metaName) ==> name == u.metaName.value
    ensures !TruthyString(u.fullName) && !TruthyString(u.metaName) && u.email.Some? && Before(u.email.value, '@') != "" ==>
              name == CapitalizeFirst(Before(u.email.value, '@'))
    ensures !TruthyString(u.fullName) && !TruthyString(u.metaName) && (u.email.None? || Before(u.email.value, '@') == "") ==>
              name == "User"
    ensures name != ""
  {
    if TruthyString(u.fullName) then u.fullName.value
    else if TruthyString(u.metaName) then u.metaName.value
    else if u.email.Some? && Before(u.email.value, '@') != "" then CapitalizeFirst(Before(u.email.value, '@'))
    else "User"
  }

  /** The name taken from an email is the text before its first '@'. */
  lemma DisplayNameFromEmail(u: NavUser)
    requires !TruthyString(u.fullName) && !TruthyString(u.metaName) && u.email.Some?
    requires '@' in u.email.value && u.email.value[0] != '@'
    ensures var local := Split(u.email.value, '@')[0];
      && local != ""
      && DisplayName(u) == CapitalizeFirst(local)
      && local + ['@'] <= u.email.value
  {
    BeforeIsFirstPiece(u.email.value, '@');
    var local := Before(u.email.value, '@');
    assert |local| < |u.email.value|;
  }

  /** `handleSearch`: the box holds the last value typed. */
  function Search(s: NavState, value: string): (t: NavState)
    ensures t.searchTerm == value && t.showNotifications == s.showNotifications
  {
    s.(searchTerm := value)
  }

  /** The bell toggles the notification list. */
  function ToggleNotifications(s: NavState): (t: NavState)
    ensures t.showNotifications == !s.showNotifications && t.searchTerm == s.searchTerm
  {
    s.(showNotifications := !s.showNotifications)
  }

  lemma ToggleNotificationsTwice(s: NavState)
    ensures ToggleNotifications(ToggleNotifications(s)) == s
  {
  }
}
