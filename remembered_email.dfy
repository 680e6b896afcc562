/**
 * The `remember_email` entry of the browser's `localStorage`, which the login
 * and signup forms both read on mount and write after a successful submit.
 */
module RememberedEmail {
  import opened Wrappers

  class BrowserStorage {
    var rememberedEmail: Option<string>

    constructor (initial: Option<string>)
      ensures rememberedEmail == initial
    {
      rememberedEmail := initial;
    }

    /** `setItem` when the box is ticked, `removeItem` otherwise. */
    method Remember(rememberMe: bool, email: string)
      modifies this
      ensures rememberedEmail == if rememberMe then Some(email) else None
    {
      if rememberMe {
        rememberedEmail := Some(email);
      } else {
        rememberedEmail := None;
      }
    }
  }

  /** `getItem` on mount: a stored, non-empty email fills the field and ticks
      the box; otherwise both stay as they were. */
  function OnMount(stored: Option<string>, email: string, rememberMe: bool): (r: (string, bool))
    ensures stored.Some? && stored.value != "" ==> r == (stored.value, true)
    ensures !(stored.Some? && stored.value != "") ==> r == (email, rememberMe)
  {
    if stored.Some? && stored.value != "" then (stored.value, true) else (email, rememberMe)
  }

  /** What a successful submit remembers is what the next mount restores, and
      a remembered empty email restores nothing. */
  lemma RememberThenMount(rememberMe: bool, email: string, current: string)
    ensures rememberMe && email != "" ==> OnMount(Some(email), current, false) == (email, true)
    ensures !rememberMe ==> OnMount(None, current, false) == (current, false)
  {
  }
}
