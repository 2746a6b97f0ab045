/** The profile transitions of the App component (src/App.tsx): completing
    onboarding and the three settings edits. Each edit is the functional
    updater `prev => prev ? { ...prev, <field>: <value> } : null`. */
module Profiles {
  import opened Types

  /** Milliliters of water per kilogram of body weight. */
  const MlPerKg := 35

  /** The goal is the one derived from the weight. */
  predicate GoalFollowsWeight(p: UserProfile)
  {
    p.dailyGoal == p.weight * MlPerKg
  }

  /** handleOnboarding: the profile built from the onboarding answers, with
      reminders on and the onboarded gate set. */
  function CompleteOnboarding(name: string, weight: int, language: Language): (p: UserProfile)
    ensures p.name == name && p.weight == weight && p.language == language
    ensures GoalFollowsWeight(p)
    ensures p.remindersEnabled && p.onboarded
  {
    UserProfile(name, weight, weight * MlPerKg, true, true, language)
  }

  /** The reminders switch: flips remindersEnabled and nothing else; no
      profile stays no profile. */
  function ToggleReminders(prev: Option<UserProfile>): (r: Option<UserProfile>)
    ensures r.Some? <==> prev.Some?
    ensures prev.Some? ==> r.value.remindersEnabled != prev.value.remindersEnabled
    ensures prev.Some? ==> r.value.(remindersEnabled := prev.value.remindersEnabled) == prev.value
  {
    match prev
    case None => None
    case Some(p) => Some(p.(remindersEnabled := !p.remindersEnabled))
  }

  /** The language buttons: replace the language and nothing else. */
  function SetLanguage(prev: Option<UserProfile>, language: Language): (r: Option<UserProfile>)
    ensures r.Some? <==> prev.Some?
    ensures prev.Some? ==> r.value.language == language
    ensures prev.Some? ==> r.value.(language := prev.value.language) == prev.value
  {
    match prev
    case None => None
    case Some(p) => Some(p.(language := language))
  }

  /** The weight field: sets the weight and recomputes the goal together,
      nothing else. */
  function SetWeight(prev: Option<UserProfile>, weight: int): (r: Option<UserProfile>)
    ensures r.Some? <==> prev.Some?
    ensures prev.Some? ==> r.value.weight == weight && GoalFollowsWeight(r.value)
    ensures prev.Some? ==>
      r.value.(weight := prev.value.weight, dailyGoal := prev.value.dailyGoal) == prev.value
  {
    match prev
    case None => None
    case Some(p) => Some(p.(weight := weight, dailyGoal := weight * MlPerKg))
  }

  /** Toggling reminders twice restores the profile. */
  lemma ToggleRemindersTwice(prev: Option<UserProfile>)
    ensures ToggleReminders(ToggleReminders(prev)) == prev
  {
  }

  /** Once the goal follows the weight, no settings edit breaks that, and a
      weight edit restores it whatever held before. */
  lemma SettingsKeepGoalFollowingWeight(prev: Option<UserProfile>, language: Language, weight: int)
    ensures prev.Some? && GoalFollowsWeight(prev.value) ==>
      GoalFollowsWeight(ToggleReminders(prev).value) &&
      GoalFollowsWeight(SetLanguage(prev, language).value)
    ensures prev.Some? ==> GoalFollowsWeight(SetWeight(prev, weight).value)
  {
  }

  /** A later weight edit overrides an earlier one, and a later language
      choice an earlier one. */
  lemma LastEditWins(prev: Option<UserProfile>, w1: int, w2: int, l1: Language, l2: Language)
    ensures SetWeight(SetWeight(prev, w1), w2) == SetWeight(prev, w2)
    ensures SetLanguage(SetLanguage(prev, l1), l2) == SetLanguage(prev, l2)
  {
  }
}
