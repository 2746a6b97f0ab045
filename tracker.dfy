/** The state of the App component (src/App.tsx): the four `useState` slots
    the core logic updates, and the handlers that update them. Browser
    storage, the clock, the day and random ids are passed in. */
module Tracker {
  import opened Types
  import opened Ledger
  import opened DayKeys
  import Profiles
  import Views

  class App {
    var profile: Option<UserProfile>
    var entries: seq<WaterEntry>
    var history: seq<DailyHistory>
    var showOnboarding: bool

    /** First render: no profile, nothing logged, onboarding shown. */
    constructor ()
      ensures profile == None && entries == [] && history == [] && showOnboarding
    {
      profile := None;
      entries := [];
      history := [];
      showOnboarding := true;
    }

    /** The drink log and the history as one value. */
    function Books(): Ledger
      reads this
    {
      Ledger(entries, history)
    }

    /** `totalToday`: the sum of the logged amounts. */
    function TotalToday(): (r: int)
      reads this
      ensures (forall i :: 0 <= i < |entries| ==> entries[i].amount >= 0) ==> r >= 0
    {
      Total(entries)
    }

    /** Whether the home screen shows the goal-reached card. */
    predicate GoalReached()
      reads this
      ensures profile.None? ==> !GoalReached()
      ensures profile.Some? && profile.value.dailyGoal > 0 ==>
        (GoalReached() <==> TotalToday() >= profile.value.dailyGoal)
    {
      Views.AtLeast100(Views.Progress(profile, Total(entries)))
    }

    /** The percentage the progress ring shows. */
    function DisplayedProgress(): (r: Views.Ratio)
      reads this
      ensures r.Fraction? || r.NaN?
      ensures r.Fraction? ==> 0 <= r.num <= 100 * r.den
      ensures r.NaN? <==> profile.Some? && profile.value.dailyGoal == 0 && TotalToday() == 0
      ensures GoalReached() <==> r == Views.Fraction(100, 1)
      ensures profile.Some? && 0 <= TotalToday() < profile.value.dailyGoal ==>
        r == Views.Fraction(TotalToday() * 100, profile.value.dailyGoal)
    {
      Views.Clamp(Views.Progress(profile, Total(entries)))
    }

    /** The 7 rows of the history screen for day `today`. */
    function LastSevenDays(today: int): (rows: seq<Views.DayRow>)
      reads this
      ensures |rows| == 7 && rows[0].key == DayKey(today)
      ensures rows[0].total == TotalOn(history, DayKey(today))
    {
      Views.Week(history, profile, today)
    }

    /** The load effect: each saved record that is present replaces its slot;
        the saved entries are first cut to those logged since the start of
        today, and a saved profile decides whether onboarding is shown. */
    method Load(savedProfile: Option<UserProfile>, savedEntries: Option<seq<WaterEntry>>,
                savedHistory: Option<seq<DailyHistory>>, startOfToday: int)
      modifies this
      ensures profile == (if savedProfile.Some? then savedProfile else old(profile))
      ensures showOnboarding == (if savedProfile.Some? then !savedProfile.value.onboarded else old(showOnboarding))
      ensures entries == (if savedEntries.Some? then Views.KeepFrom(savedEntries.value, startOfToday) else old(entries))
      ensures savedEntries.Some? ==> forall e :: e in entries ==> e.timestamp >= startOfToday
      ensures history == (if savedHistory.Some? then savedHistory.value else old(history))
    {
      if savedProfile.Some? {
        profile := savedProfile;
        showOnboarding := !savedProfile.value.onboarded;
      }
      if savedEntries.Some? {
        entries := Views.KeepFrom(savedEntries.value, startOfToday);
      }
      if savedHistory.Some? {
        history := savedHistory.value;
      }
    }

    /** addWater: log `amount` ml at instant `now` under id `id`, and add it to
        the history record of day `today`. */
    method AddWater(amount: int, id: string, now: int, today: int)
      modifies this
      ensures entries == old(entries) + [WaterEntry(id, amount, now)]
      ensures history == Upsert(old(history), DayKey(today), amount)
      ensures profile == old(profile) && showOnboarding == old(showOnboarding)
      ensures TotalToday() == old(TotalToday()) + amount
      ensures TotalOn(history, DayKey(today)) == old(TotalOn(history, DayKey(today))) + amount
      ensures UniqueDates(old(history)) ==> UniqueDates(history)
      ensures Consistent(old(Books()), DayKey(today)) ==> Consistent(Books(), DayKey(today))
      ensures amount >= 0 && profile.Some? && profile.value.dailyGoal > 0 ==>
        Views.AtMost(old(DisplayedProgress()), DisplayedProgress())
    {
      ghost var before := Books();
      var entry := WaterEntry(id, amount, now);
      entries := entries + [entry];
      history := Upsert(history, DayKey(today), amount);
      assert Books() == Log(before, entry, DayKey(today));
      LogTotals(before, entry, DayKey(today), DayKey(today));
      UpsertKeepsUniqueDates(before.history, DayKey(today), amount);
      if amount >= 0 && profile.Some? && profile.value.dailyGoal > 0 {
        Views.ClampedProgressMonotone(Total(before.entries), amount, profile.value.dailyGoal);
      }
    }

    /** handleOnboarding: store the new profile and leave onboarding. */
    method HandleOnboarding(name: string, weight: int, language: Language)
      modifies this
      ensures profile == Some(Profiles.CompleteOnboarding(name, weight, language))
      ensures profile.value.dailyGoal == weight * Profiles.MlPerKg
      ensures !showOnboarding
      ensures entries == old(entries) && history == old(history)
    {
      profile := Some(Profiles.CompleteOnboarding(name, weight, language));
      showOnboarding := false;
    }

    /** The reminders switch. */
    method ToggleReminders()
      modifies this
      ensures profile == Profiles.ToggleReminders(old(profile))
      ensures entries == old(entries) && history == old(history) && showOnboarding == old(showOnboarding)
    {
      profile := Profiles.ToggleReminders(profile);
    }

    /** One of the language buttons. */
    method SetLanguage(language: Language)
      modifies this
      ensures profile == Profiles.SetLanguage(old(profile), language)
      ensures entries == old(entries) && history == old(history) && showOnboarding == old(showOnboarding)
    {
      profile := Profiles.SetLanguage(profile, language);
    }

    /** The weight field. */
    method SetWeight(weight: int)
      modifies this
      ensures profile == Profiles.SetWeight(old(profile), weight)
      ensures entries == old(entries) && history == old(history) && showOnboarding == old(showOnboarding)
    {
      profile := Profiles.SetWeight(profile, weight);
    }
  }

  /** A first session: onboarding at 70 kg gives a 2450 ml goal; 250 ml and
      then 500 ml on the same day make 750 ml, short of the goal. */
  method FirstSession(today: int, now: int) returns (total: int, goal: int, reached: bool, ring: Views.Ratio)
    ensures goal == 2450 && total == 750 && !reached
    ensures ring == Views.Fraction(75000, 2450)
  {
    var app := new App();
    app.HandleOnboarding("Ana", 70, PT);
    app.AddWater(250, "a", now, today);
    app.AddWater(500, "b", now, today);
    total := app.TotalToday();
    goal := app.profile.value.dailyGoal;
    Views.GoalReachedIff(total, goal);
    reached := app.GoalReached();
    ring := app.DisplayedProgress();
  }
}
