/** The drink log and the date-keyed daily history (src/App.tsx, addWater and
    totalToday), as pure transformations of the two lists. */
module Ledger {
  import opened Types

  /** `entries.reduce((acc, e) => acc + e.amount, 0)`: folded from the left, so
      the last entry is the last one added. */
  function Total(entries: seq<WaterEntry>): (r: int)
    ensures (forall i :: 0 <= i < |entries| ==> entries[i].amount >= 0) ==> r >= 0
    ensures |entries| == 1 ==> r == entries[0].amount
  {
    if entries == [] then 0
    else Total(entries[..|entries| - 1]) + entries[|entries| - 1].amount
  }

  /** The total of a concatenation is the sum of the totals. */
  lemma {:induction false} TotalConcat(a: seq<WaterEntry>, b: seq<WaterEntry>)
    ensures Total(a + b) == Total(a) + Total(b)
  {
    if b == [] {
      assert a + b == a;
    } else {
      var ab := a + b;
      assert ab[..|ab| - 1] == a + b[..|b| - 1];
      TotalConcat(a, b[..|b| - 1]);
    }
  }

  /** With positive amounts only, the total is positive exactly when something
      was logged. */
  lemma {:induction false} TotalPositive(entries: seq<WaterEntry>)
    requires forall i :: 0 <= i < |entries| ==> entries[i].amount > 0
    ensures Total(entries) >= 0
    ensures Total(entries) > 0 <==> entries != []
  {
    if entries != [] {
      TotalPositive(entries[..|entries| - 1]);
    }
  }

  /** `history.find(h => h.date === key)`, as the index of the first record
      carrying `key`. */
  function Find(history: seq<DailyHistory>, key: string): (r: Option<nat>)
    ensures r.None? <==> forall i :: 0 <= i < |history| ==> history[i].date != key
    ensures r.Some? ==> r.value < |history| && history[r.value].date == key
    ensures r.Some? ==> forall j :: 0 <= j < r.value ==> history[j].date != key
  {
    if history == [] then None
    else if history[0].date == key then Some(0)
    else match Find(history[1..], key)
      case None => None
      case Some(i) => Some(i + 1)
  }

  /** The total recorded for `key`: that of the first matching record, or 0
      when there is none (`dayData?.total || 0`). */
  function TotalOn(history: seq<DailyHistory>, key: string): (r: int)
    ensures (forall j :: 0 <= j < |history| ==> history[j].date != key) ==> r == 0
    ensures forall j :: 0 <= j < |history| && history[j].date == key ==>
      ((forall k :: 0 <= k < j ==> history[k].date != key) ==> r == history[j].total)
  {
    match Find(history, key)
    case Some(i) => history[i].total
    case None => 0
  }

  /** Every record's date, as a set. */
  function Dates(history: seq<DailyHistory>): set<string>
  {
    set i | 0 <= i < |history| :: history[i].date
  }

  /** No two records share a date. */
  predicate UniqueDates(history: seq<DailyHistory>)
  {
    forall i, j :: 0 <= i < j < |history| ==> history[i].date != history[j].date
  }

  /** `history.map(h => h.date === key ? { ...h, total: h.total + amount } : h)`:
      every record carrying `key` gains `amount`. */
  function AddToDay(history: seq<DailyHistory>, key: string, amount: int): (r: seq<DailyHistory>)
    ensures |r| == |history|
    ensures forall i :: 0 <= i < |history| ==> r[i].date == history[i].date
    ensures forall i :: 0 <= i < |history| && history[i].date != key ==> r[i] == history[i]
    ensures forall i :: 0 <= i < |history| && history[i].date == key ==> r[i].total == history[i].total + amount
  {
    seq(|history|, i requires 0 <= i < |history| =>
      if history[i].date == key then history[i].(total := history[i].total + amount)
      else history[i])
  }

  /** The history update of addWater: add to today's record when one exists,
      otherwise append a new record for today at the end. */
  function Upsert(history: seq<DailyHistory>, key: string, amount: int): (r: seq<DailyHistory>)
    ensures Find(history, key).Some? ==>
      |r| == |history| &&
      forall i :: 0 <= i < |history| ==>
        r[i].date == history[i].date &&
        r[i].total == (if history[i].date == key then history[i].total + amount else history[i].total)
    ensures Find(history, key).None? ==>
      |r| == |history| + 1 && r[..|history|] == history && r[|history|] == DailyHistory(key, amount)
  {
    if Find(history, key).Some? then AddToDay(history, key, amount)
    else history + [DailyHistory(key, amount)]
  }

  /** The dates after an upsert are the dates before it plus today's. */
  lemma UpsertDates(history: seq<DailyHistory>, key: string, amount: int)
    ensures Dates(Upsert(history, key, amount)) == Dates(history) + {key}
  {
  }

  /** The upsert never creates a second record for a date. */
  lemma UpsertKeepsUniqueDates(history: seq<DailyHistory>, key: string, amount: int)
    ensures UniqueDates(history) ==> UniqueDates(Upsert(history, key, amount))
  {
  }

  /** With unique dates, an upsert on a present date changes exactly one record,
      the one for that date, and only its total. */
  lemma UpsertChangesOneRecord(history: seq<DailyHistory>, key: string, amount: int, k: nat)
    requires UniqueDates(history)
    requires k < |history| && history[k].date == key
    ensures |Upsert(history, key, amount)| == |history|
    ensures Upsert(history, key, amount)[k] == DailyHistory(key, history[k].total + amount)
    ensures forall i :: 0 <= i < |history| && i != k ==> Upsert(history, key, amount)[i] == history[i]
  {
  }

  /** Two histories with the same dates at the same positions find the same index. */
  lemma FindSameDates(a: seq<DailyHistory>, b: seq<DailyHistory>, key: string)
    requires |a| == |b|
    requires forall i :: 0 <= i < |a| ==> a[i].date == b[i].date
    ensures Find(a, key) == Find(b, key)
  {
  }

  /** Seen through the lookup, an upsert adds `amount` to `key`'s total and
      leaves every other date's total alone, duplicates or not. */
  lemma UpsertTotalOn(history: seq<DailyHistory>, key: string, amount: int, other: string)
    ensures TotalOn(Upsert(history, key, amount), other) ==
            TotalOn(history, other) + (if other == key then amount else 0)
  {
    var r := Upsert(history, key, amount);
    if Find(history, key).Some? {
      FindSameDates(history, r, other);
    } else if other != key {
      assert forall i :: 0 <= i < |history| ==> r[i] == history[i];
      match Find(r, other)
      case None =>
      case Some(i) =>
        assert i < |history|;
    } else {
      assert r[|history|].date == key;
    }
  }

  /** The two lists addWater updates. */
  datatype Ledger = Ledger(entries: seq<WaterEntry>, history: seq<DailyHistory>)

  /** addWater on the two lists: append the entry, upsert today's record. */
  function Log(l: Ledger, e: WaterEntry, key: string): (r: Ledger)
    ensures r.entries == l.entries + [e]
  {
    Ledger(l.entries + [e], Upsert(l.history, key, e.amount))
  }

  /** Logging a drink on day `key` raises today's total and that day's
      recorded total by the drink's amount, and leaves every other day's
      recorded total as it was. */
  lemma LogTotals(l: Ledger, e: WaterEntry, key: string, other: string)
    ensures Total(Log(l, e, key).entries) == Total(l.entries) + e.amount
    ensures TotalOn(Log(l, e, key).history, other) ==
            TotalOn(l.history, other) + (if other == key then e.amount else 0)
  {
    assert (l.entries + [e])[..|l.entries|] == l.entries;
    UpsertTotalOn(l.history, key, e.amount, other);
  }

  /** Logs every drink of `drinks`, in order, against the same day key. */
  function LogAll(l: Ledger, drinks: seq<WaterEntry>, key: string): Ledger
    decreases drinks
  {
    if drinks == [] then l else LogAll(Log(l, drinks[0], key), drinks[1..], key)
  }

  /** A session of drinks on one day appends exactly those drinks to the
      entries. */
  lemma {:induction false} SessionEntries(l: Ledger, drinks: seq<WaterEntry>, key: string)
    ensures LogAll(l, drinks, key).entries == l.entries + drinks
    decreases drinks
  {
    if drinks == [] {
      assert l.entries + drinks == l.entries;
    } else {
      var next := Log(l, drinks[0], key);
      assert LogAll(l, drinks, key) == LogAll(next, drinks[1..], key);
      SessionEntries(next, drinks[1..], key);
      assert next.entries + drinks[1..] == l.entries + drinks by {
        assert drinks == [drinks[0]] + drinks[1..];
      }
    }
  }

  /** A session never gives two history records the same date. */
  lemma {:induction false} SessionKeepsUniqueDates(l: Ledger, drinks: seq<WaterEntry>, key: string)
    ensures UniqueDates(l.history) ==> UniqueDates(LogAll(l, drinks, key).history)
    decreases drinks
  {
    if drinks != [] {
      UpsertKeepsUniqueDates(l.history, key, drinks[0].amount);
      SessionKeepsUniqueDates(Log(l, drinks[0], key), drinks[1..], key);
    }
  }

  /** A session of drinks raises today's total by the sum of the drinks. */
  lemma {:induction false} SessionEntryTotal(l: Ledger, drinks: seq<WaterEntry>, key: string)
    ensures Total(LogAll(l, drinks, key).entries) == Total(l.entries) + Total(drinks)
    decreases drinks
  {
    SessionEntries(l, drinks, key);
    TotalConcat(l.entries, drinks);
  }

  /** A session of drinks on one day raises that day's history record by
      the sum of the drinks. */
  lemma {:induction false} SessionDayTotal(l: Ledger, drinks: seq<WaterEntry>, key: string)
    ensures TotalOn(LogAll(l, drinks, key).history, key) == TotalOn(l.history, key) + Total(drinks)
    decreases drinks
  {
    if drinks != [] {
      var first, rest := drinks[0], drinks[1..];
      var next := Log(l, first, key);
      assert LogAll(l, drinks, key) == LogAll(next, rest, key);
      LogTotals(l, first, key, key);
      SessionDayTotal(next, rest, key);
      assert drinks == [first] + rest;
      TotalConcat([first], rest);
      assert Total(drinks) == first.amount + Total(rest);
    }
  }

  /** A session of drinks on one day: both today's total and today's history
      record grow by the sum of the drinks. */
  lemma SessionTotals(l: Ledger, drinks: seq<WaterEntry>, key: string)
    ensures Total(LogAll(l, drinks, key).entries) == Total(l.entries) + Total(drinks)
    ensures TotalOn(LogAll(l, drinks, key).history, key) == TotalOn(l.history, key) + Total(drinks)
  {
    SessionEntryTotal(l, drinks, key);
    SessionDayTotal(l, drinks, key);
  }

  /** Today's history record agrees with the sum of today's entries. */
  predicate Consistent(l: Ledger, key: string)
  {
    TotalOn(l.history, key) == Total(l.entries)
  }

  /** Although the record is updated by addition rather than recomputed from
      the entries, a session that starts consistent stays consistent, and a
      session started from nothing has both equal to the sum of its drinks. */
  lemma SessionKeepsConsistent(l: Ledger, drinks: seq<WaterEntry>, key: string)
    ensures Consistent(l, key) ==> Consistent(LogAll(l, drinks, key), key)
    ensures Total(LogAll(Ledger([], []), drinks, key).entries) == Total(drinks)
    ensures TotalOn(LogAll(Ledger([], []), drinks, key).history, key) == Total(drinks)
  {
    SessionTotals(l, drinks, key);
    SessionTotals(Ledger([], []), drinks, key);
  }
}
