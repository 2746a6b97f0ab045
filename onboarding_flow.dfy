/** The two-step Onboarding screen (src/App.tsx, function Onboarding): the
    first step asks for the language and the name, the second for the weight
    on a 30..150 kg slider, and its Start button hands the answers to
    handleOnboarding. */
module OnboardingFlow {
  import opened Types
  import Profiles

  const MinWeight := 30
  const MaxWeight := 150
  const DefaultWeight := 70

  datatype Screen = NameStep | WeightStep

  /** The screen's local state: the step shown and the answers so far. */
  datatype Wizard = Wizard(screen: Screen, name: string, weight: int, language: Language)

  /** Step 1, empty name, 70 kg, Portuguese. */
  const Start := Wizard(NameStep, "", DefaultWeight, PT)

  /** What the user can do; each only on the step that shows its control. */
  datatype Event =
    | PickLanguage(language: Language)
    | EditName(text: string)
    | Next
    | Slide(value: int)
    | Back

  /** A range input's value always lies between its min and max. */
  function SliderValue(v: int): (r: int)
    ensures MinWeight <= r <= MaxWeight
    ensures MinWeight <= v <= MaxWeight ==> r == v
  {
    if v < MinWeight then MinWeight else if v > MaxWeight then MaxWeight else v
  }

  /** The effect of one event. Next is disabled while the name is empty. */
  function Step(w: Wizard, e: Event): (r: Wizard)
    ensures w.screen == NameStep && r.screen == WeightStep ==> e.Next? && w.name != ""
    ensures w.screen == WeightStep ==> r.name == w.name && r.language == w.language
    ensures w.screen == NameStep ==> r.weight == w.weight
    ensures r.weight == w.weight || MinWeight <= r.weight <= MaxWeight
  {
    match e
    case PickLanguage(l) => if w.screen == NameStep then w.(language := l) else w
    case EditName(t) => if w.screen == NameStep then w.(name := t) else w
    case Next => if w.screen == NameStep && w.name != "" then w.(screen := WeightStep) else w
    case Slide(v) => if w.screen == WeightStep then w.(weight := SliderValue(v)) else w
    case Back => if w.screen == WeightStep then w.(screen := NameStep) else w
  }

  /** The state after a sequence of events. */
  function Run(w: Wizard, events: seq<Event>): Wizard
  {
    if events == [] then w else Step(Run(w, events[..|events| - 1]), events[|events| - 1])
  }

  /** Pressing Start: only the weight step shows it, and it completes
      onboarding with the answers given. */
  function Finish(w: Wizard): (r: Option<UserProfile>)
    ensures r.Some? <==> w.screen == WeightStep
    ensures r.Some? ==>
      r.value.name == w.name && r.value.weight == w.weight &&
      r.value.language == w.language && r.value.dailyGoal == w.weight * Profiles.MlPerKg
  {
    if w.screen == WeightStep then Some(Profiles.CompleteOnboarding(w.name, w.weight, w.language))
    else None
  }

  /** What every state the screen can reach satisfies. */
  predicate Reachable(w: Wizard)
  {
    MinWeight <= w.weight <= MaxWeight && (w.screen == WeightStep ==> w.name != "")
  }

  lemma {:induction false} RunStaysReachable(events: seq<Event>)
    ensures Reachable(Run(Start, events))
  {
    if events != [] {
      RunStaysReachable(events[..|events| - 1]);
    }
  }

  /** Whatever the user does, a completed onboarding has a non-empty name, a
      weight from the slider's range and the goal derived from it. */
  lemma CompletedProfileIsValid(events: seq<Event>)
    ensures Finish(Run(Start, events)).Some? ==>
      var p := Finish(Run(Start, events)).value;
      p.name != "" && MinWeight <= p.weight <= MaxWeight &&
      p.dailyGoal == p.weight * Profiles.MlPerKg &&
      MinWeight * Profiles.MlPerKg <= p.dailyGoal <= MaxWeight * Profiles.MlPerKg &&
      p.remindersEnabled && p.onboarded
  {
    RunStaysReachable(events);
  }

  /** Conversely every non-empty name, slider weight and language can be
      entered and completed. */
  lemma EveryValidAnswerCompletes(name: string, weight: int, language: Language)
    requires name != "" && MinWeight <= weight <= MaxWeight
    ensures Finish(Run(Start, [PickLanguage(language), EditName(name), Next, Slide(weight)])) ==
            Some(Profiles.CompleteOnboarding(name, weight, language))
  {
    var events := [PickLanguage(language), EditName(name), Next, Slide(weight)];
    assert events[..0] == [];
    assert events[..1][..0] == [] && events[..1] == [PickLanguage(language)];
    assert Run(Start, events[..1]) == Start.(language := language);
    assert events[..2][..1] == events[..1];
    assert Run(Start, events[..2]) == Wizard(NameStep, name, DefaultWeight, language);
    assert events[..3][..2] == events[..2];
    assert Run(Start, events[..3]) == Wizard(WeightStep, name, DefaultWeight, language);
    assert events[..4] == events;
    assert Run(Start, events) == Wizard(WeightStep, name, weight, language);
  }
}
