/** What the App component derives from its state without changing it
    (src/App.tsx): the entries kept at load time, the progress percentage and
    its goal-reached test, the clamped progress display and the 7-day
    history. */
module Views {
  import opened Types
  import opened Ledger
  import opened DayKeys

  /** The load-time filter `e.filter(entry => entry.timestamp >= start)`:
      keeps the entries logged at or after `start`, in their order. */
  function KeepFrom(entries: seq<WaterEntry>, start: int): (r: seq<WaterEntry>)
    ensures forall e :: e in r <==> e in entries && e.timestamp >= start
    ensures |r| <= |entries|
  {
    if entries == [] then []
    else (if entries[0].timestamp >= start then [entries[0]] else []) + KeepFrom(entries[1..], start)
  }

  /** The filter distributes over concatenation, so it keeps the kept
      entries in their original order. */
  lemma {:induction false} KeepFromConcat(a: seq<WaterEntry>, b: seq<WaterEntry>, start: int)
    ensures KeepFrom(a + b, start) == KeepFrom(a, start) + KeepFrom(b, start)
  {
    if a == [] {
      assert a + b == b;
    } else {
      assert (a + b)[1..] == a[1..] + b;
      KeepFromConcat(a[1..], b, start);
    }
  }

  /** Day rollover: filtering again from a later start of day gives what
      filtering once from that later start gives, so nothing logged before
      today survives a reload today. */
  lemma {:induction false} KeepFromLater(entries: seq<WaterEntry>, earlier: int, later: int)
    requires earlier <= later
    ensures KeepFrom(KeepFrom(entries, earlier), later) == KeepFrom(entries, later)
  {
    if entries != [] {
      var head, rest := entries[0], entries[1..];
      KeepFromLater(rest, earlier, later);
      var first := if head.timestamp >= earlier then [head] else [];
      assert KeepFrom(entries, earlier) == first + KeepFrom(rest, earlier);
      KeepFromConcat(first, KeepFrom(rest, earlier), later);
      assert KeepFrom(first, later) == if head.timestamp >= later then [head] else [] by {
        if first != [] {
          assert first[1..] == [];
        }
      }
    }
  }

  /** A drink logged before the start of today does not count in today's
      total after a reload, wherever it sits in the saved list. */
  lemma EarlierDrinkNotCounted(before: seq<WaterEntry>, e: WaterEntry, after: seq<WaterEntry>, start: int)
    requires e.timestamp < start
    ensures Total(KeepFrom(before + [e] + after, start)) == Total(KeepFrom(before + after, start))
  {
    KeepFromConcat(before + [e], after, start);
    KeepFromConcat(before, [e], start);
    KeepFromConcat(before, after, start);
    assert KeepFrom([e], start) == [];
    assert KeepFrom(before + [e], start) == KeepFrom(before, start);
  }

  /** A JavaScript number resulting from `(total / goal) * 100`. A finite value
      is kept exactly, as the fraction num / den with a positive den. */
  datatype Ratio = Fraction(num: int, den: int) | PosInfinity | NegInfinity | NaN

  /** The denominator of a finite value is positive. */
  predicate WellFormed(p: Ratio)
  {
    p.Fraction? ==> p.den > 0
  }

  /** `(total / goal) * 100`; dividing by a zero goal gives +Infinity, -Infinity
      or NaN after the sign of the total. */
  function Percent(total: int, goal: int): (r: Ratio)
    ensures WellFormed(r)
    ensures r.Fraction? <==> goal != 0
  {
    if goal > 0 then Fraction(total * 100, goal)
    else if goal < 0 then Fraction(-total * 100, -goal)
    else if total > 0 then PosInfinity
    else if total < 0 then NegInfinity
    else NaN
  }

  /** The fraction is exactly the quotient `(total / goal) * 100`. */
  lemma PercentIsQuotient(total: int, goal: int)
    requires goal != 0
    ensures Percent(total, goal).num as real / Percent(total, goal).den as real ==
            (total as real / goal as real) * 100.0
  {
  }

  /** `progress`: the percentage of the goal, 0 while there is no profile. */
  function Progress(profile: Option<UserProfile>, total: int): (r: Ratio)
    ensures WellFormed(r)
    ensures profile.None? ==> r == Fraction(0, 1)
    ensures profile.Some? ==> r == Percent(total, profile.value.dailyGoal)
    ensures profile.Some? && profile.value.dailyGoal > 0 ==> r == Fraction(total * 100, profile.value.dailyGoal)
  {
    match profile
    case None => Fraction(0, 1)
    case Some(p) => Percent(total, p.dailyGoal)
  }

  /** `progress >= 100`; every comparison with NaN is false. */
  predicate AtLeast100(p: Ratio)
    ensures p.Fraction? && p.den > 0 ==> (AtLeast100(p) <==> p.num as real / p.den as real >= 100.0)
  {
    match p
    case Fraction(n, d) => n >= 100 * d
    case PosInfinity => true
    case NegInfinity => false
    case NaN => false
  }

  /** The goal is reached exactly when the total reaches the goal; with a zero
      goal, as soon as anything positive is logged. */
  lemma GoalReachedIff(total: int, goal: int)
    ensures goal > 0 ==> (AtLeast100(Percent(total, goal)) <==> total >= goal)
    ensures goal < 0 ==> (AtLeast100(Percent(total, goal)) <==> total <= goal)
    ensures goal == 0 ==> (AtLeast100(Percent(total, goal)) <==> total > 0)
  {
  }

  /** With a positive goal, logging more never takes the goal-reached state
      away. */
  lemma GoalReachedMonotone(total: int, more: int, goal: int)
    requires goal > 0 && more >= 0
    ensures AtLeast100(Percent(total, goal)) ==> AtLeast100(Percent(total + more, goal))
  {
  }

  /** With a positive goal, logging more never lowers the percentage: both
      values have the goal as denominator and the numerator does not drop. */
  lemma ProgressMonotone(total: int, more: int, goal: int)
    requires goal > 0 && more >= 0
    ensures Percent(total, goal).den == Percent(total + more, goal).den
    ensures Percent(total, goal).num <= Percent(total + more, goal).num
    ensures AtMost(Percent(total, goal), Percent(total + more, goal))
  {
  }

  /** The order of finite percentages, compared by cross-multiplying with
      the positive denominators. */
  predicate AtMost(p: Ratio, q: Ratio)
  {
    p.Fraction? && q.Fraction? && p.num * q.den <= q.num * p.den
  }

  /** `Math.min(100, Math.max(0, progress))`, the ProgressBar display. */
  function Clamp(p: Ratio): (r: Ratio)
    requires WellFormed(p)
    ensures WellFormed(r)
    ensures r.Fraction? ==> 0 <= r.num <= 100 * r.den
    ensures r.NaN? <==> p.NaN?
    ensures p.Fraction? && 0 <= p.num < 100 * p.den ==> r == p
    ensures p.Fraction? && p.num < 0 ==> r == Fraction(0, 1)
    ensures r.Fraction? || r.NaN?
    ensures p.NegInfinity? ==> r == Fraction(0, 1)
    ensures AtLeast100(p) <==> r == Fraction(100, 1)
  {
    match p
    case Fraction(n, d) =>
      if n < 0 then Fraction(0, 1) else if n >= 100 * d then Fraction(100, 1) else p
    case PosInfinity => Fraction(100, 1)
    case NegInfinity => Fraction(0, 1)
    case NaN => NaN
  }

  /** With a positive goal, logging more never lowers the clamped value the
      progress ring shows. */
  lemma ClampedProgressMonotone(total: int, more: int, goal: int)
    requires goal > 0 && more >= 0
    ensures AtMost(Clamp(Percent(total, goal)), Clamp(Percent(total + more, goal)))
  {
  }

  /** `Math.min(100, dayProgress)`, the width of a history bar. */
  function CapAt100(p: Ratio): (r: Ratio)
    requires WellFormed(p)
    ensures WellFormed(r)
    ensures r.Fraction? ==> r.num <= 100 * r.den
    ensures r.NaN? <==> p.NaN?
    ensures p.Fraction? && p.num < 100 * p.den ==> r == p
    ensures !r.PosInfinity?
    ensures p.NegInfinity? ==> r == p
    ensures AtLeast100(p) <==> r == Fraction(100, 1)
  {
    match p
    case Fraction(n, d) => if n >= 100 * d then Fraction(100, 1) else p
    case PosInfinity => Fraction(100, 1)
    case NegInfinity => NegInfinity
    case NaN => NaN
  }

  /** One row of the history screen. */
  datatype DayRow = DayRow(offset: nat, key: string, total: int, bar: Ratio, reached: bool)

  /** The row for `offset` days before `today`. */
  function RowFor(history: seq<DailyHistory>, profile: Option<UserProfile>, today: int, offset: nat): (row: DayRow)
    ensures row.offset == offset && row.key == KeyBefore(today, offset)
    ensures row.total == TotalOn(history, row.key)
    ensures !row.bar.PosInfinity? && (row.bar.Fraction? ==> row.bar.num <= 100 * row.bar.den)
    ensures row.reached <==> row.bar == Fraction(100, 1)
    ensures profile.None? ==> row.bar == Fraction(0, 1) && !row.reached
    ensures profile.Some? && profile.value.dailyGoal > 0 ==> (row.reached <==> row.total >= profile.value.dailyGoal)
    ensures profile.Some? && 0 < profile.value.dailyGoal && row.total < profile.value.dailyGoal ==>
      row.bar == Fraction(row.total * 100, profile.value.dailyGoal)
  {
    var key := KeyBefore(today, offset);
    var total := TotalOn(history, key);
    var progress := Progress(profile, total);
    DayRow(offset, key, total, CapAt100(progress), AtLeast100(progress))
  }

  /** The last 7 days, today first. */
  function Week(history: seq<DailyHistory>, profile: Option<UserProfile>, today: int): (rows: seq<DayRow>)
    ensures |rows| == 7
    ensures forall i :: 0 <= i < 7 ==> rows[i].offset == i && rows[i].key == KeyBefore(today, i)
    ensures forall i :: 0 <= i < 7 ==>
      !rows[i].bar.PosInfinity? && (rows[i].bar.Fraction? ==> rows[i].bar.num <= 100 * rows[i].bar.den) &&
      (rows[i].reached <==> rows[i].bar == Fraction(100, 1))
    ensures forall i :: 0 <= i < 7 ==>
      profile.Some? && 0 < profile.value.dailyGoal && rows[i].total < profile.value.dailyGoal ==>
      rows[i].bar == Fraction(rows[i].total * 100, profile.value.dailyGoal)
  {
    seq(7, i requires 0 <= i < 7 => RowFor(history, profile, today, i))
  }

  /** Each row shows the total of the first record for its date, or 0 when
      the history has no record for that date. */
  lemma WeekRowTotals(history: seq<DailyHistory>, profile: Option<UserProfile>, today: int, i: nat)
    requires i < 7
    ensures var row := Week(history, profile, today)[i];
      (forall j :: 0 <= j < |history| ==> history[j].date != row.key) ==> row.total == 0
    ensures var row := Week(history, profile, today)[i];
      forall j :: 0 <= j < |history| && history[j].date == row.key ==>
        ((forall k :: 0 <= k < j ==> history[k].date != row.key) ==> row.total == history[j].total)
  {
  }

  /** The key of the day `offset` days before `today`. */
  function KeyBefore(today: int, offset: int): string
  {
    DayKey(today - offset)
  }

  /** The 7 rows are 7 different calendar days: today and the six days before
      it have seven different keys. */
  lemma SevenDistinctDays(today: int)
    ensures forall i, j :: 0 <= i < j < 7 ==> KeyBefore(today, i) != KeyBefore(today, j)
  {
    forall i, j | 0 <= i < j < 7
      ensures KeyBefore(today, i) != KeyBefore(today, j)
    {
      DayKeyInjective(today - i, today - j);
    }
  }

  /** A row is marked reached exactly when, with a positive goal, its total
      reaches the goal; without a profile no row is. */
  lemma WeekReached(history: seq<DailyHistory>, profile: Option<UserProfile>, today: int, i: nat)
    requires i < 7
    ensures profile.None? ==> !Week(history, profile, today)[i].reached
    ensures profile.Some? && profile.value.dailyGoal > 0 ==>
      (Week(history, profile, today)[i].reached <==>
       Week(history, profile, today)[i].total >= profile.value.dailyGoal)
  {
  }

  /** Logging a drink today raises today's row by its amount and leaves the
      six earlier rows as they were. */
  lemma WeekAfterLog(l: Ledger, e: WaterEntry, profile: Option<UserProfile>, today: int)
    ensures Week(Log(l, e, DayKey(today)).history, profile, today)[0].total ==
            Week(l.history, profile, today)[0].total + e.amount
    ensures forall i :: 1 <= i < 7 ==>
      Week(Log(l, e, DayKey(today)).history, profile, today)[i] == Week(l.history, profile, today)[i]
  {
    TodayRowAfterLog(l, e, profile, today);
    forall i | 1 <= i < 7
      ensures Week(Log(l, e, DayKey(today)).history, profile, today)[i] == Week(l.history, profile, today)[i]
    {
      EarlierRowAfterLog(l, e, profile, today, i);
    }
  }

  /** Today's row after logging a drink shows the drink added. */
  lemma TodayRowAfterLog(l: Ledger, e: WaterEntry, profile: Option<UserProfile>, today: int)
    ensures Week(Log(l, e, DayKey(today)).history, profile, today)[0].total ==
            Week(l.history, profile, today)[0].total + e.amount
  {
    var key := DayKey(today);
    var before, after := l.history, Log(l, e, key).history;
    LogTotals(l, e, key, key);
    assert KeyBefore(today, 0) == key;
    assert Week(after, profile, today)[0].total == TotalOn(after, key);
    assert Week(before, profile, today)[0].total == TotalOn(before, key);
  }

  /** A row for an earlier day is not touched by logging a drink today. */
  lemma EarlierRowAfterLog(l: Ledger, e: WaterEntry, profile: Option<UserProfile>, today: int, i: nat)
    requires 1 <= i < 7
    ensures Week(Log(l, e, DayKey(today)).history, profile, today)[i] == Week(l.history, profile, today)[i]
  {
    var key, k := DayKey(today), KeyBefore(today, i);
    DayKeyInjective(today, today - i);
    assert k != key;
    LogTotals(l, e, key, k);
    SameTotalSameRow(Log(l, e, key).history, l.history, profile, today, i);
  }

  /** A row depends on the history only through its day's total. */
  lemma SameTotalSameRow(h1: seq<DailyHistory>, h2: seq<DailyHistory>, profile: Option<UserProfile>, today: int, i: nat)
    requires i < 7
    requires TotalOn(h1, KeyBefore(today, i)) == TotalOn(h2, KeyBefore(today, i))
    ensures Week(h1, profile, today)[i] == Week(h2, profile, today)[i]
  {
    assert Week(h1, profile, today)[i] == RowFor(h1, profile, today, i);
    assert Week(h2, profile, today)[i] == RowFor(h2, profile, today, i);
  }

}
