/** The three-step onboarding form: identity, details, theme. */
module Onboarding {
  import opened Types
  import opened InitialProfile

  const TotalSteps := 3

  class Flow {
    var step: int
    var name: string
    var role: string
    var location: string
    var bio: string
    var theme: ProfileTheme

    /** The step is one of the three, and the answers a step insists on
        were given before the form moved past it. */
    predicate Valid()
      reads this
    {
      1 <= step <= TotalSteps
      && (step >= 2 ==> name != "" && role != "")
      && (step == 3 ==> location != "")
    }

    constructor()
      ensures step == 1 && name == "" && role == "" && location == "" && bio == ""
      ensures theme == Monochrome && Valid()
    {
      step := 1;
      name := "";
      role := "";
      location := "";
      bio := "";
      theme := Monochrome;
    }

    /** The Next button's `disabled` test, negated. */
    predicate NextEnabled()
      reads this
    {
      !((step == 1 && (name == "" || role == "")) || (step == 2 && location == ""))
    }

    /** A click on Next: nothing while it is disabled; before the last step it
        moves on; on the last step it hands the generated profile to
        `onComplete`. */
    method Next() returns (completed: Option<ProfileData>)
      requires Valid()
      modifies this
      ensures Valid()
      ensures name == old(name) && role == old(role) && location == old(location)
      ensures bio == old(bio) && theme == old(theme)
      ensures !old(NextEnabled()) ==> step == old(step) && completed.None?
      ensures old(NextEnabled()) && old(step) < TotalSteps ==> step == old(step) + 1 && completed.None?
      ensures old(step) == TotalSteps ==>
                step == old(step) && completed == Some(GenerateInitialProfile(name, role, location, bio, ThemeName(theme)))
    {
      if !NextEnabled() {
        return None;
      }
      if step < TotalSteps {
        step := step + 1;
        completed := None;
      } else {
        completed := Some(GenerateInitialProfile(name, role, location, bio, ThemeName(theme)));
      }
    }

    /** The Back button, shown only after the first step. */
    method Back()
      requires Valid()
      modifies this
      ensures Valid()
      ensures step == (if old(step) > 1 then old(step) - 1 else old(step))
      ensures name == old(name) && role == old(role) && location == old(location)
      ensures bio == old(bio) && theme == old(theme)
    {
      if step > 1 {
        step := step - 1;
      }
    }

    /** `handleThemeSelect` */
    method ThemeSelect(t: ProfileTheme)
      modifies this
      ensures theme == t && step == old(step)
      ensures name == old(name) && role == old(role) && location == old(location) && bio == old(bio)
    {
      theme := t;
    }

    /** Typing in the name field, which is on the first step only. */
    method SetName(v: string)
      requires Valid() && step == 1
      modifies this
      ensures Valid() && name == v && step == old(step)
      ensures role == old(role) && location == old(location) && bio == old(bio) && theme == old(theme)
    {
      name := v;
    }

    /** Typing in the role field, which is on the first step only. */
    method SetRole(v: string)
      requires Valid() && step == 1
      modifies this
      ensures Valid() && role == v && step == old(step)
      ensures name == old(name) && location == old(location) && bio == old(bio) && theme == old(theme)
    {
      role := v;
    }

    /** Typing in the location field, which is on the second step only. */
    method SetLocation(v: string)
      requires Valid() && step == 2
      modifies this
      ensures Valid() && location == v && step == old(step)
      ensures name == old(name) && role == old(role) && bio == old(bio) && theme == old(theme)
    {
      location := v;
    }

    /** Typing in the bio field, which is on the second step only. */
    method SetBio(v: string)
      requires Valid() && step == 2
      modifies this
      ensures Valid() && bio == v && step == old(step)
      ensures name == old(name) && role == old(role) && location == old(location) && theme == old(theme)
    {
      bio := v;
    }
  }

  /** Next is never disabled on the last step. */
  lemma LastStepEnabled(f: Flow)
    requires f.step == TotalSteps
    ensures f.NextEnabled()
  {
  }

  /** What the form hands over keeps the typed answers (the defaults for a
      blank name or role never apply, since the first step insists on
      both) and the chosen theme. */
  lemma CompletedProfileKeepsAnswers(name: string, role: string, location: string, bio: string, t: ProfileTheme)
    requires name != "" && role != "" && location != ""
    ensures var p := GenerateInitialProfile(name, role, location, bio, ThemeName(t));
            p.name == name && p.role == role && p.location == location && p.theme == t
  {
    SelectedThemeOfName(t);
  }
}
