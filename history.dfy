/**
 * A day-bucketed history: one value per calendar day. Writes through the
 * dated subscript are gated by a retention cutoff `depth` days from today
 * (`depth` is negative, e.g. -30); writing today's bucket and every read are
 * never gated.
 *
 * Dates are whole seconds counted from a local midnight, so that truncating a
 * date to its (year, month, day) components is a floor division by the length
 * of a day. Time zones and daylight-saving days are not modelled.
 */
module History {
  import opened Options

  /** A point in time, in seconds since a local midnight. */
  type Date = int

  /** A calendar day, the truncation of a date to its (year, month, day). */
  type Day = int

  const SecondsPerDay: int := 86400

  /** `truncate(date:)`: the day a date falls on. */
  function Truncate(date: Date): (day: Day)
    ensures day * SecondsPerDay <= date < (day + 1) * SecondsPerDay
  {
    date / SecondsPerDay
  }

  /** The first second of a day (`Calendar.date(from:)` on truncated components). */
  function StartOfDay(day: Day): (date: Date)
    ensures Truncate(date) == day
  {
    TruncateWithin(day * SecondsPerDay, day);
    day * SecondsPerDay
  }

  /** Every date within a day's bounds truncates to that day. */
  lemma TruncateWithin(date: Date, day: Day)
    requires day * SecondsPerDay <= date < (day + 1) * SecondsPerDay
    ensures Truncate(date) == day
  {
  }

  /** Two dates share a bucket exactly when they fall within the same day. */
  lemma SameDay(a: Date, b: Date)
    ensures Truncate(a) == Truncate(b) <==>
      Truncate(a) * SecondsPerDay <= b < (Truncate(a) + 1) * SecondsPerDay
  {
    if Truncate(a) * SecondsPerDay <= b < (Truncate(a) + 1) * SecondsPerDay {
      TruncateWithin(b, Truncate(a));
    }
  }

  /**
   * `cutoff`: the day of the calendar's answer to "today plus `depth` days",
   * or nothing when the calendar cannot compute that date.
   */
  function Cutoff(shifted: Option<Date>): (r: Option<Day>)
    ensures r.Some? <==> shifted.Some?
    ensures r.Some? ==> r.value * SecondsPerDay <= shifted.value < (r.value + 1) * SecondsPerDay
  {
    match shifted
    case Some(date) => Some(Truncate(date))
    case None => None
  }

  /** When the calendar adds `depth` whole days, the cutoff is today + `depth`. */
  lemma CutoffIsDepthDaysBack(now: Date, depth: int)
    ensures Cutoff(Some(now + depth * SecondsPerDay)) == Some(Truncate(now) + depth)
  {
    var t := Truncate(now);
    TruncateWithin(now + depth * SecondsPerDay, t + depth);
  }

  /** Whether the dated setter lets a write to `day` through. */
  predicate Admits(cutoff: Option<Day>, day: Day)
  {
    cutoff.Some? && day >= cutoff.value
  }

  /** Reading a dictionary slot. */
  function Lookup<T>(h: map<Day, T>, day: Day): (v: Option<T>)
    ensures v.Some? <==> day in h
    ensures v.Some? ==> v.value == h[day]
  {
    if day in h then Some(h[day]) else None
  }

  /**
   * Assigning a dictionary slot: a value stores it, `nil` removes the slot.
   * Every other slot stays as it was.
   */
  function Assign<T>(h: map<Day, T>, day: Day, v: Option<T>): (r: map<Day, T>)
    ensures Lookup(r, day) == v
    ensures forall d :: d != day ==> Lookup(r, d) == Lookup(h, d)
    ensures r.Keys == if v.Some? then h.Keys + {day} else h.Keys - {day}
  {
    if v.Some? then h[day := v.value] else h - {day}
  }

  /** The dated setter: the assignment when the cutoff admits the day, else nothing. */
  function GatedAssign<T>(h: map<Day, T>, day: Day, v: Option<T>, cutoff: Option<Day>): map<Day, T>
  {
    if Admits(cutoff, day) then Assign(h, day, v) else h
  }

  /** A write read back through the same day returns what was written. */
  lemma ReadBack<T>(h: map<Day, T>, written: Date, read: Date, v: Option<T>)
    requires Truncate(written) == Truncate(read)
    ensures Lookup(Assign(h, Truncate(written), v), Truncate(read)) == v
  {
  }

  /** The retention gate: writes on or after the cutoff are stored, all others dropped. */
  lemma RetentionGate<T>(h: map<Day, T>, day: Day, v: Option<T>, cutoff: Option<Day>)
    ensures cutoff.Some? && day >= cutoff.value ==> GatedAssign(h, day, v, cutoff) == Assign(h, day, v)
    ensures cutoff.None? || day < cutoff.value ==> GatedAssign(h, day, v, cutoff) == h
  {
  }

  /** A gated write touches at most the targeted bucket. */
  lemma GatedWriteIsLocal<T>(h: map<Day, T>, day: Day, v: Option<T>, cutoff: Option<Day>, other: Day)
    requires other != day
    ensures Lookup(GatedAssign(h, day, v, cutoff), other) == Lookup(h, other)
  {
  }

  /** Rewriting a day that already has a bucket leaves the number of buckets alone. */
  lemma RewriteKeepsCount<T>(h: map<Day, T>, day: Day, v: T)
    requires day in h
    ensures |Assign(h, day, Some(v))| == |h|
  {
    var r := Assign(h, day, Some(v));
    assert r.Keys == h.Keys;
    assert |r| == |r.Keys| && |h| == |h.Keys|;
  }

  /** Writing a day with no bucket yet adds exactly one bucket. */
  lemma NewDayAddsOne<T>(h: map<Day, T>, day: Day, v: T)
    requires day !in h
    ensures |Assign(h, day, Some(v))| == |h| + 1
  {
    var r := Assign(h, day, Some(v));
    assert r.Keys == h.Keys + {day};
    assert |r| == |r.Keys| && |h| == |h.Keys|;
  }

  /** A set of days is empty or has a member. */
  lemma EmptyOrInhabited(s: set<Day>)
    ensures s == {} || exists d :: d in s
  {
    if forall d :: d !in s {
      assert s == {};
    }
  }

  /** `History<T>`: the retention depth and the private dictionary of buckets. */
  class History<T> {
    /** The retention depth in days; negative (-30 by default). */
    const depth: int
    var history: map<Day, T>

    constructor(depth: int)
      ensures this.depth == depth && history == map[]
    {
      this.depth := depth;
      history := map[];
    }

    /** `currentValue` read: today's bucket, where `clock` is the current date. */
    function CurrentValue(clock: Date): (r: Option<T>)
      reads this
      ensures r.Some? <==> Truncate(clock) in history
      ensures r.Some? ==> r.value == history[Truncate(clock)]
    {
      Lookup(history, Truncate(clock))
    }

    /** `currentValue` write: today's bucket, never gated by the cutoff. */
    method SetCurrentValue(clock: Date, v: Option<T>)
      modifies this
      ensures history == Assign(old(history), Truncate(clock), v)
      ensures CurrentValue(clock) == v
    {
      var today := Truncate(clock);
      if v.Some? {
        history := history[today := v.value];
      } else {
        history := history - {today};
      }
    }

    /** The dated subscript read: any stored bucket, however old. */
    function Get(date: Date): (r: Option<T>)
      reads this
      ensures r.Some? <==> Truncate(date) in history
      ensures r.Some? ==> r.value == history[Truncate(date)]
    {
      Lookup(history, Truncate(date))
    }

    /**
     * The dated subscript write at the current date `clock`. `shifted` is the
     * calendar's answer to "`clock` plus `depth` days": with days of a fixed
     * length that is `depth` whole days later, or nothing when the calendar
     * has no answer.
     */
    method Set(date: Date, v: Option<T>, clock: Date, shifted: Option<Date>)
      requires shifted.None? || shifted.value == clock + depth * SecondsPerDay
      modifies this
      ensures history == GatedAssign(old(history), Truncate(date), v, Cutoff(shifted))
      ensures shifted.Some? ==>
        history == (if Truncate(date) >= Truncate(clock) + depth then Assign(old(history), Truncate(date), v)
                    else old(history))
      ensures Admits(Cutoff(shifted), Truncate(date)) ==> Get(date) == v
    {
      var truncated := Truncate(date);
      if shifted.None? {
        return;
      }
      CutoffIsDepthDaysBack(clock, depth);
      var cutoffDate := StartOfDay(Truncate(shifted.value));
      var truncDate := StartOfDay(truncated);
      if truncDate >= cutoffDate {
        if v.Some? {
          history := history[truncated := v.value];
        } else {
          history := history - {truncated};
        }
      }
    }

    /** `count`: the number of stored buckets. */
    function Count(): (c: nat)
      reads this
      ensures c == |history.Keys|
      ensures c == 0 <==> history == map[]
    {
      |history|
    }

    /**
     * Iteration: every stored (day, value) pair exactly once, old buckets
     * before the cutoff included. Dictionary order is unspecified, so the
     * pairs come in whatever order the picks below take them.
     */
    method Entries() returns (items: seq<(Day, T)>)
      ensures |items| == Count()
      ensures forall i :: 0 <= i < |items| ==> Lookup(history, items[i].0) == Some(items[i].1)
      ensures forall i, j :: 0 <= i < j < |items| ==> items[i].0 != items[j].0
      ensures forall d :: d in history ==> exists i :: 0 <= i < |items| && items[i].0 == d
    {
      items := [];
      var rest := history.Keys;
      while rest != {}
        invariant rest <= history.Keys
        invariant |items| + |rest| == |history.Keys|
        invariant forall i :: 0 <= i < |items| ==> items[i].0 in history && items[i].0 !in rest
        invariant forall i :: 0 <= i < |items| ==> history[items[i].0] == items[i].1
        invariant forall i, j :: 0 <= i < j < |items| ==> items[i].0 != items[j].0
        invariant forall d :: d in history && d !in rest ==> exists i :: 0 <= i < |items| && items[i].0 == d
        decreases |rest|
      {
        EmptyOrInhabited(rest);
        var d :| d in rest;
        ghost var before := items;
        items := items + [(d, history[d])];
        rest := rest - {d};
        forall e | e in history && e !in rest
          ensures exists i :: 0 <= i < |items| && items[i].0 == e
        {
          if e == d {
            assert items[|items| - 1].0 == e;
          } else {
            var i :| 0 <= i < |before| && before[i].0 == e;
            assert items[i].0 == e;
          }
        }
      }
      assert |history| == |history.Keys|;
    }
  }
}
