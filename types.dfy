/** Records the hydration tracker keeps: the user profile, one logged drink and
    one day of the history ledger (src/types.ts). */
module Types {

  datatype Option<+T> = None | Some(value: T)

  /** The three interface languages. */
  datatype Language = PT | EN | ES

  /** The user's profile. Weights and goals are whole numbers here: kilograms
      and milliliters. */
  datatype UserProfile = UserProfile(
    name: string,
    weight: int,
    dailyGoal: int,
    remindersEnabled: bool,
    onboarded: bool,
    language: Language)

  /** One logged drink: an opaque id, the amount in milliliters and the
      instant (milliseconds) it was logged. */
  datatype WaterEntry = WaterEntry(id: string, amount: int, timestamp: int)

  /** The accumulated total of one calendar day, keyed by its date string. */
  datatype DailyHistory = DailyHistory(date: string, total: int)
}
