/** The sign-in modal and the simulated login. */
module Auth {
  import Text

  const Hidden: string := "none"
  const Shown: string := "flex"

  /** The markup `handleAuth` puts before the user's name on the user button. */
  const UserIcon: string := "<i class=\"fas fa-user\"></i> "

  /** `toggleAuth`: the modal's new `style.display`. Only "none" opens it; any other value,
      including an unset "", closes it. */
  function Toggled(display: string): (r: string)
    ensures r == Shown <==> display == Hidden
    ensures r == Hidden <==> display != Hidden
  {
    if display == Hidden then Shown else Hidden
  }

  /** Toggling twice restores the display exactly when it was one of the two toggle states. */
  lemma ToggleTwice(display: string)
    ensures Toggled(Toggled(display)) == display <==> display == Hidden || display == Shown
  {
  }

  /** `if (email && password)`: the login acts only when both fields are non-empty. */
  predicate Accepts(email: string, password: string)
  {
    email != "" && password != ""
  }

  /** `email.split('@')[0]`: the name shown after a login. */
  function DisplayName(email: string): (name: string)
    ensures name <= email && '@' !in name
    ensures '@' !in email ==> name == email
    ensures |name| < |email| ==> email[|name|] == '@'
  {
    Text.TextBeforeSplits(email, '@');
    Text.TextBefore(email, '@')
  }
}
