/** The daily quota window, for a location with a fixed offset from UTC. */
module QuotaWindow {
  import opened Tables

  const DAY := 86400
  const OFFSET := 28800  // Asia/Shanghai, the default quota location

  // quotaWindowForTime: local midnight before t; the window ends one day later.
  function WindowStart(t: Time): Time {
    (t + OFFSET) / DAY * DAY - OFFSET
  }

  function WindowEnd(t: Time): Time { WindowStart(t) + DAY }

  predicate IsWindow(start: Time) { (start + OFFSET) % DAY == 0 }

  predicate InWindow(t: Time, start: Time) { start <= t < start + DAY }

  // The windows partition time.
  lemma WindowsPartition(t: Time, start: Time)
    ensures IsWindow(WindowStart(t)) && InWindow(t, WindowStart(t))
    ensures IsWindow(start) && InWindow(t, start) ==> start == WindowStart(t)
  {
    var q := (t + OFFSET) / DAY;
    assert (q * DAY) % DAY == 0;
    if IsWindow(start) && InWindow(t, start) {
      var k := (start + OFFSET) / DAY;
      assert start + OFFSET == k * DAY;
      assert k * DAY <= t + OFFSET < (k + 1) * DAY;
      assert k == q;
    }
  }

  function Rows(subs: map<SubId, Submission>, a: Account, start: Time): set<SubId> {
    UsageRows(subs, a, start, start + DAY)
  }

  // ----- the calendar

  // The day of a moment in Shanghai, eight hours ahead of UTC, counted in days of 24 hours.
  function Day(t: Time): int { (t + 8 * 60 * 60) / (24 * 60 * 60) }

  /** The window of a moment is its day from midnight to midnight: 24 hours, of which it is one, from
      a start at which the clock eight hours ahead of UTC shows 00:00. */
  lemma WindowIsDay(t: Time)
    ensures WindowStart(t) <= t < WindowEnd(t) && WindowEnd(t) == WindowStart(t) + 86400
    ensures (WindowStart(t) + 28800) % 86400 == 0 && WindowStart(t) == Day(t) * 86400 - 28800
  {}

  /** Two moments are in one window exactly if they are on one day. */
  lemma OneWindowIff(t: Time, u: Time)
    ensures WindowStart(t) == WindowStart(u) <==> (t + 28800) / 86400 == (u + 28800) / 86400
    ensures InWindow(u, WindowStart(t)) <==> Day(u) == Day(t)
  {
    WindowsPartition(u, WindowStart(t));
    WindowsPartition(t, WindowStart(t));
  }

  // The submissions of the account that were created on the day and count against the quota.
  function CountingOn(subs: map<SubId, Submission>, a: Account, day: int): set<SubId> {
    set x | x in subs && subs[x].user == a.user && subs[x].lab == a.lab && Day(subs[x].createdAt) == day
        && (subs[x].quota == Pending || subs[x].quota == Charged)
  }

  /** What is counted in the window of a moment are the pending and charged submissions of its day. */
  lemma WindowCountsDay(subs: map<SubId, Submission>, a: Account, t: Time)
    ensures Rows(subs, a, WindowStart(t)) == CountingOn(subs, a, Day(t))
    ensures UsageRows(subs, a, WindowStart(t), WindowEnd(t)) == CountingOn(subs, a, Day(t))
  {
    forall x | x in subs ensures InWindow(subs[x].createdAt, WindowStart(t)) <==> Day(subs[x].createdAt) == Day(t) {
      OneWindowIff(t, subs[x].createdAt);
    }
  }

  // Midnight of a day.
  function Midnight(day: int): Time { day * 86400 - 28800 }

  lemma WindowOfDay(subs: map<SubId, Submission>, a: Account, day: int)
    ensures IsWindow(Midnight(day)) && Rows(subs, a, Midnight(day)) == CountingOn(subs, a, day)
    ensures forall t :: InWindow(t, Midnight(day)) <==> Day(t) == day
    ensures forall t | Day(t) == day :: WindowStart(t) == Midnight(day)
  {
    WindowCountsDay(subs, a, Midnight(day));
    forall t ensures InWindow(t, Midnight(day)) <==> Day(t) == day {
      OneWindowIff(Midnight(day), t);
    }
  }
}
