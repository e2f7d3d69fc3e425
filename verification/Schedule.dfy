/** When an automation fires next. Times are nanoseconds; the calendar of a location is abstract. */
module Schedules {
  import opened Wrappers
  import opened Arithmetic
  import opened Text
  import opened CronFields
  import opened CronExpressions

  const SECOND := 1_000_000_000
  const MINUTE := 60 * SECOND
  const MIN_INTERVAL := 30 * SECOND
  const MAX_ADVANCES := 100000

  datatype Clock = Clock(minute: int, hour: int, day: int, month: int, weekday: int)

  /** A location: the fields of an instant, and the instant 366 days later. */
  datatype Calendar = Calendar(clock: int -> Clock, horizon: int -> int)

  datatype ScheduleError = BadInterval | BadCron | NoFireTime | TooManyFires

  datatype Trigger = Manual | Interval(every: Option<int>) | CronTrigger(expr: string)

  // ----- cronSchedule.matches and next -----

  predicate Matches(s: Cron, t: Clock) {
    && t.minute in s.minute && t.hour in s.hour && t.month in s.month
    && if !s.domStar && !s.dowStar then t.day in s.dom || t.weekday in s.dow
       else t.day in s.dom && t.weekday in s.dow
  }

  /** The days of an expression: the day of the month and the day of the week must both be allowed while
      one of the two fields is a star, either is enough while neither is. */
  lemma DayRule(expr: string, t: Clock)
    requires CronOf(expr).Some?
    ensures var f, s := Words(TrimSpace(expr)), CronOf(expr).value;
            && |f| == 5
            && (t.minute !in s.minute || t.hour !in s.hour || t.month !in s.month ==> !Matches(s, t))
            && (t.minute in s.minute && t.hour in s.hour && t.month in s.month ==>
                  && (f[2] != "*" && f[4] != "*" ==> (Matches(s, t) <==> t.day in s.dom || t.weekday in s.dow))
                  && (f[2] == "*" || f[4] == "*" ==> (Matches(s, t) <==> t.day in s.dom && t.weekday in s.dow)))
  {
    hide CronOf;
    CronIsRead(expr);
  }

  /** A fire time: a whole minute whose clock matches. */
  predicate Fires(s: Cron, cal: Calendar, t: int) { t % MINUTE == 0 && Matches(s, cal.clock(t)) }

  function NextMinute(after: int): (t: int)
    ensures t % MINUTE == 0 && t - MINUTE <= after < t
  {
    (after / MINUTE + 1) * MINUTE
  }

  /** `t` is the first fire strictly after `after`. */
  ghost predicate FirstFire(s: Cron, cal: Calendar, after: int, t: int) {
    Fires(s, cal, t) && after < t && forall x :: after < x < t ==> !Fires(s, cal, x)
  }

  ghost predicate NoFire(s: Cron, cal: Calendar, after: int, until: int) {
    forall x :: after < x < until ==> !Fires(s, cal, x)
  }

  lemma NoFireWithin(t: int, x: int)
    requires t % MINUTE == 0 && t < x < t + MINUTE
    ensures x % MINUTE != 0
  {
    assert x % MINUTE == x - t;
  }

  lemma NoFireBefore(s: Cron, cal: Calendar, after: int)
    ensures NoFire(s, cal, after, NextMinute(after))
  {
    hide Matches, NextMinute;
    var t := NextMinute(after);
    MinuteBefore(t);
    forall x | after < x < t ensures !Fires(s, cal, x) { NoFireWithin(t - MINUTE, x); }
  }

  lemma MinuteBefore(t: int)
    requires t % MINUTE == 0
    ensures (t - MINUTE) % MINUTE == 0
  {
  }

  /** No fire before a whole minute that does not match, then none before the next one. */
  lemma NoFireMinute(s: Cron, cal: Calendar, after: int, t: int)
    requires t % MINUTE == 0 && NoFire(s, cal, after, t) && !Matches(s, cal.clock(t))
    ensures NoFire(s, cal, after, t + MINUTE)
  {
    hide Matches;
    forall x | after < x < t + MINUTE ensures !Fires(s, cal, x) {
      if t < x { NoFireWithin(t, x); }
    }
  }

  method NextCron(s: Cron, cal: Calendar, after: int) returns (r: Option<int>)
    ensures r.Some? ==> FirstFire(s, cal, after, r.value) && r.value < cal.horizon(NextMinute(after))
    ensures r.None? ==> NoFire(s, cal, after, cal.horizon(NextMinute(after)))
  {
    hide Matches;
    var t := NextMinute(after);
    var horizon := cal.horizon(t);
    assert NoFire(s, cal, after, t) by { NoFireBefore(s, cal, after); }
    while t < horizon
      invariant t % MINUTE == 0 && after < t
      invariant NoFire(s, cal, after, t)
      decreases horizon - t
    {
      if Matches(s, cal.clock(t)) { return Some(t); }
      NoFireMinute(s, cal, after, t);
      t := t + MINUTE;
    }
    return None;
  }

  // ----- NextAfterNow: intervals -----

  /** One fire at a time. */
  function Stepped(from: int, every: int, now: int): int
    requires every > 0
    decreases now - from
  {
    if from + every > now then from + every else Stepped(from + every, every, now)
  }

  /** The first fire after `now` of an interval schedule anchored at `from`. */
  ghost predicate FirstPeriod(from: int, every: int, now: int, next: int) {
    && next > now
    && (exists k: int :: k >= 1 && next == Nth(from, every, k))
    && forall k: int :: k >= 1 && Nth(from, every, k) > now ==> next <= Nth(from, every, k)
  }

  function Nth(from: int, every: int, k: int): int { from + k * every }

  lemma NthGrows(from: int, every: int, j: int, k: int)
    requires every > 0 && j < k
    ensures Nth(from, every, j) + every <= Nth(from, every, k)
  {
    AtLeast(k - j, every);
    Distribute(k, j, every);
  }

  lemma NextNth(from: int, every: int, k: int)
    ensures Nth(from, every, k + 1) == Nth(from, every, k) + every
    ensures Nth(from + every, every, k) == Nth(from, every, k + 1)
  {
    assert (k + 1) * every == k * every + every;
  }

  lemma {:induction false} SteppedIsFirst(from: int, every: int, now: int)
    requires every > 0 && from <= now
    ensures FirstPeriod(from, every, now, Stepped(from, every, now))
    decreases now - from
  {
    hide Nth;
    FirstNth(from, every);
    var r := Stepped(from, every, now);
    if from + every > now {
      assert r == Nth(from, every, 1);
      forall k: int | k >= 1 ensures r <= Nth(from, every, k) {
        if k > 1 { NthGrows(from, every, 1, k); }
      }
    } else {
      SteppedIsFirst(from + every, every, now);
      var k :| k >= 1 && r == Nth(from + every, every, k);
      NextNth(from, every, k);
      forall n: int | n >= 1 && Nth(from, every, n) > now ensures r <= Nth(from, every, n) {
        if n > 1 { NextNth(from, every, n - 1); }
      }
    }
  }

  lemma FirstNth(from: int, every: int)
    ensures Nth(from, every, 1) == from + every
  {
  }

  /** The first period after now is unique, so the jump and the steps agree. */
  lemma FirstIsUnique(from: int, every: int, now: int, a: int, b: int)
    requires FirstPeriod(from, every, now, a) && FirstPeriod(from, every, now, b)
    ensures a == b
  {
  }

  /** The loop that guards the jump: steps on until past now. */
  method StepPast(from: int, every: int, now: int, at: int, ghost k: int) returns (next: int, ghost n: int)
    requires every > 0 && at == Nth(from, every, k) && at - every <= now
    ensures n >= k && next == Nth(from, every, n) && next - every <= now < next
  {
    next, n := at, k;
    while next <= now
      invariant n >= k && next == Nth(from, every, n) && next - every <= now
      decreases now - next
    {
      NextNth(from, every, n);
      next, n := next + every, n + 1;
    }
  }

  /** The interval branch: jumps over the missed periods in one step. */
  method NextInterval(from: int, every: int, now: int) returns (next: int)
    requires every > 0 && from <= now
    ensures next == Stepped(from, every, now) && FirstPeriod(from, every, now, next)
  {
    next := from + every;
    ghost var k := 1;
    FirstNth(from, every);
    if next <= now {
      var missed := (now - next) / every;
      Jump(from, every, now, missed);
      next, k := StepPast(from, every, now, next + every * (missed + 1), missed + 2);
    }
    NthIsFirst(from, every, now, next, k);
    SteppedIsFirst(from, every, now);
    FirstIsUnique(from, every, now, next, Stepped(from, every, now));
  }

  lemma NthIsFirst(from: int, every: int, now: int, next: int, k: int)
    requires every > 0 && k >= 1 && next == Nth(from, every, k) && next - every <= now < next
    ensures FirstPeriod(from, every, now, next)
  {
    hide Nth;
    forall n: int | n >= 1 && Nth(from, every, n) > now ensures next <= Nth(from, every, n) {
      if n < k { NthGrows(from, every, n, k); }
      if n > k { NthGrows(from, every, k, n); }
    }
  }

  lemma Jump(from: int, every: int, now: int, missed: int)
    requires every > 0 && from + every <= now && missed == (now - from - every) / every
    ensures missed >= 0
    ensures Nth(from, every, missed + 2) == from + every + every * (missed + 1)
    ensures Nth(from, every, missed + 2) - every <= now
  {
    var d := now - from - every;
    assert d == missed * every + d % every;
    assert (missed + 2) * every == missed * every + every + every;
    assert every * (missed + 1) == missed * every + every;
  }

  // ----- NextAfterNow: cron -----

  /** The number of fires after `from` and up to `now`. */
  function CountFires(s: Cron, cal: Calendar, from: int, now: int): nat
    decreases now - from
  {
    if from >= now then 0 else CountFires(s, cal, from, now - 1) + if Fires(s, cal, now) then 1 else 0
  }

  lemma {:induction false} CountSplit(s: Cron, cal: Calendar, from: int, mid: int, now: int)
    requires from <= mid <= now
    ensures CountFires(s, cal, from, now) == CountFires(s, cal, from, mid) + CountFires(s, cal, mid, now)
    decreases now - mid
  {
    hide Fires;
    if mid < now { CountSplit(s, cal, from, mid, now - 1); }
  }

  lemma {:induction false} CountNone(s: Cron, cal: Calendar, from: int, now: int)
    requires NoFire(s, cal, from, now + 1)
    ensures CountFires(s, cal, from, now) == 0
    decreases now - from
  {
    if from < now {
      assert !Fires(s, cal, now);
      CountNone(s, cal, from, now - 1);
    }
  }

  lemma CountFirst(s: Cron, cal: Calendar, from: int, next: int, now: int)
    requires FirstFire(s, cal, from, next)
    ensures next <= now ==> CountFires(s, cal, from, now) == 1 + CountFires(s, cal, next, now)
    ensures next > now ==> CountFires(s, cal, from, now) == 0
  {
    hide Fires;
    if next <= now {
      CountNone(s, cal, from, next - 1);
      CountSplit(s, cal, from, next, now);
    } else {
      CountNone(s, cal, from, now);
    }
  }

  /** A point at or before now from which no fire lies within the search horizon. */
  ghost predicate Exhausted(s: Cron, cal: Calendar, from: int, now: int) {
    exists f :: from <= f <= now && (f == from || Fires(s, cal, f)) && NoFire(s, cal, f, cal.horizon(NextMinute(f)))
  }

  /** The result is the first fire after now, as stepping from fire to fire finds it; it fails just
      when MAX_ADVANCES or more fires were missed or a search finds nothing. */
  method NextCronAfterNow(s: Cron, cal: Calendar, from: int, now: int) returns (r: Result<int, ScheduleError>)
    requires from <= now
    ensures r.Ok? <==> CountFires(s, cal, from, now) < MAX_ADVANCES && !Exhausted(s, cal, from, now)
    ensures r.Ok? ==> FirstFire(s, cal, now, r.value)
    ensures r == Err(TooManyFires) ==> CountFires(s, cal, from, now) >= MAX_ADVANCES
    ensures r == Err(NoFireTime) ==> Exhausted(s, cal, from, now)
    ensures r.Ok? || r.error in {TooManyFires, NoFireTime}
  {
    hide Fires;
    var at := from;
    var i := 0;
    while i < MAX_ADVANCES
      invariant 0 <= i <= MAX_ADVANCES && from <= at <= now
      invariant at == from || Fires(s, cal, at)
      invariant CountFires(s, cal, from, now) == i + CountFires(s, cal, at, now)
      invariant forall f :: from <= f < at && (f == from || Fires(s, cal, f)) ==> !NoFire(s, cal, f, cal.horizon(NextMinute(f)))
    {
      var next := NextCron(s, cal, at);
      if next.None? { return Err(NoFireTime); }
      CountFirst(s, cal, at, next.value, now);
      assert !NoFire(s, cal, at, cal.horizon(NextMinute(at)));
      if next.value > now { return Ok(next.value); }
      at := next.value;
      i := i + 1;
    }
    return Err(TooManyFires);
  }

  // ----- NextAfterNow -----

  /** The anchor, unless it is unset or in the future. */
  function StartFrom(anchor: Option<int>, now: int): (from: int)
    ensures from <= now
    ensures anchor.Some? && anchor.value <= now ==> from == anchor.value
    ensures anchor.None? || anchor.value > now ==> from == now
  {
    if anchor.None? || anchor.value > now then now else anchor.value
  }

  /** What a computed next fire promises: it is the first one after now. */
  ghost predicate IsNext(trigger: Trigger, cal: Calendar, from: int, now: int, next: Option<int>) {
    match trigger
    case Manual => next == None
    case Interval(every) =>
      every.Some? && every.value >= MIN_INTERVAL && next.Some? && FirstPeriod(from, every.value, now, next.value)
    case CronTrigger(expr) =>
      CronOf(expr).Some? && next.Some? && FirstFire(CronOf(expr).value, cal, now, next.value)
  }

  /** A fire time can be computed: a valid trigger, and for cron fewer than MAX_ADVANCES missed fires
      and none from which the search finds no other. */
  ghost predicate Computable(trigger: Trigger, cal: Calendar, from: int, now: int) {
    match trigger
    case Manual => true
    case Interval(every) => every.Some? && every.value >= MIN_INTERVAL
    case CronTrigger(expr) =>
      && CronOf(expr).Some? && CountFires(CronOf(expr).value, cal, from, now) < MAX_ADVANCES
      && !Exhausted(CronOf(expr).value, cal, from, now)
  }

  method NextAfterNow(trigger: Trigger, cal: Calendar, anchor: Option<int>, now: int)
    returns (r: Result<Option<int>, ScheduleError>)
    ensures r.Ok? <==> Computable(trigger, cal, StartFrom(anchor, now), now)
    ensures r.Ok? ==> IsNext(trigger, cal, StartFrom(anchor, now), now, r.value)
    ensures r == Err(BadInterval) <==> trigger.Interval? && (trigger.every.None? || trigger.every.value < MIN_INTERVAL)
    ensures r == Err(BadCron) <==> trigger.CronTrigger? && CronOf(trigger.expr).None?
    ensures r == Err(TooManyFires) ==>
              trigger.CronTrigger? && CronOf(trigger.expr).Some?
              && CountFires(CronOf(trigger.expr).value, cal, StartFrom(anchor, now), now) >= MAX_ADVANCES
    ensures r == Err(NoFireTime) ==>
              trigger.CronTrigger? && CronOf(trigger.expr).Some?
              && Exhausted(CronOf(trigger.expr).value, cal, StartFrom(anchor, now), now)
  {
    hide CronOf, Stepped, CountFires, FirstPeriod, FirstFire, Exhausted;
    var from := if anchor.None? || anchor.value > now then now else anchor.value;
    match trigger {
      case Interval(every) =>
        if every.None? || every.value < MIN_INTERVAL { return Err(BadInterval); }
        var next := NextInterval(from, every.value, now);
        return Ok(Some(next));
      case Manual => return Ok(None);
      case CronTrigger(expr) =>
        var cron := ParseCron(expr);
        if cron.None? { return Err(BadCron); }
        var next := NextCronAfterNow(cron.value, cal, from, now);
        if next.Err? { return Err(next.error); }
        return Ok(Some(next.value));
    }
  }

  // ----- a long downtime -----

  predicate InClock(c: Clock) {
    0 <= c.minute <= 59 && 0 <= c.hour <= 23 && 1 <= c.day <= 31 && 1 <= c.month <= 12 && 0 <= c.weekday <= 6
  }

  /** Clock fields are in range, and the horizon lies ahead. */
  ghost predicate Sane(cal: Calendar) {
    (forall t :: InClock(cal.clock(t))) && forall t :: cal.horizon(t) > t
  }

  const EACH_MINUTE := "* * * * *"

  /** A cron automation that fires every minute is lost by a downtime of 100000 minutes or more,
      although it has a fire right after now: a long downtime does not always collapse to one fire. */
  method LongDowntimeFails(cal: Calendar, now: int, n: int) returns (r: Result<Option<int>, ScheduleError>)
    requires Sane(cal) && now % MINUTE == 0 && n >= MAX_ADVANCES
    ensures r == Err(TooManyFires)
    ensures CronOf(EACH_MINUTE).Some? && FirstFire(CronOf(EACH_MINUTE).value, cal, now, now + MINUTE)
  {
    hide CronOf, Exhausted, Matches;
    EachMinuteFires(cal);
    var down := now - n * MINUTE;
    EveryMinute(CronOf(EACH_MINUTE).value, cal, now, n);
    NeverExhausted(CronOf(EACH_MINUTE).value, cal, down, now);
    assert StartFrom(Some(down), now) == down;
    r := NextAfterNow(CronTrigger(EACH_MINUTE), cal, Some(down), now);
    assert !Computable(CronTrigger(EACH_MINUTE), cal, down, now);
    assert r.error !in {BadInterval, BadCron, NoFireTime};
    assert r.error.TooManyFires?;
  }

  lemma EachMinuteFires(cal: Calendar)
    requires Sane(cal)
    ensures CronOf(EACH_MINUTE).Some? && forall t :: t % MINUTE == 0 ==> Fires(CronOf(EACH_MINUTE).value, cal, t)
  {
    hide CronOf, Denotes, StepsFit;
    var w := [Every, Every, Every, Every, Every];
    StarsPrinted();
    CronDenotes(w);
    var c := CronOf(EACH_MINUTE).value;
    StarHolds(c.minute, 0, 59);
    StarHolds(c.hour, 0, 23);
    StarHolds(c.dom, 1, 31);
    StarHolds(c.month, 1, 12);
    StarDays(c.dow);
    forall t | t % MINUTE == 0 ensures Fires(c, cal, t) { assert InClock(cal.clock(t)); }
  }

  lemma StarsPrinted()
    ensures PrintCron([Every, Every, Every, Every, Every]) == EACH_MINUTE
  {
    assert Join(["*"], ' ') == "*";
    assert Join(["*", "*"], ' ') == "* *";
    assert Join(["*", "*", "*"], ' ') == "* * *";
    assert Join(["*", "*", "*", "*"], ' ') == "* * * *";
    assert Join(["*", "*", "*", "*", "*"], ' ') == "* * * * *";
  }

  lemma StarHolds(values: set<int>, lo: int, hi: int)
    requires 0 <= lo <= hi <= 59 && Means(values, [Term(lo, hi, 1)], lo, hi)
    ensures forall v :: v in values <==> lo <= v <= hi
  {
    var terms := [Term(lo, hi, 1)];
    assert StepsFit(terms);
    forall v | lo <= v <= hi ensures v in values { assert v in Progression(terms[0]); }
  }

  lemma StarDays(days: set<int>)
    requires MeansDays(days, [Term(0, 7, 1)])
    ensures forall d :: d in days <==> 0 <= d <= 6
  {
    var terms := [Term(0, 7, 1)];
    assert StepsFit(terms);
    forall d | 0 <= d <= 6 ensures d in days { assert d in Progression(terms[0]); }
  }

  lemma NeverExhausted(s: Cron, cal: Calendar, from: int, now: int)
    requires Sane(cal) && forall t :: t % MINUTE == 0 ==> Fires(s, cal, t)
    ensures !Exhausted(s, cal, from, now)
  {
    hide Fires;
    forall f ensures !NoFire(s, cal, f, cal.horizon(NextMinute(f))) { assert Fires(s, cal, NextMinute(f)); }
  }

  lemma {:induction false} EveryMinute(s: Cron, cal: Calendar, now: int, n: int)
    requires n >= 0 && now % MINUTE == 0
    requires forall t :: t % MINUTE == 0 ==> Fires(s, cal, t)
    ensures CountFires(s, cal, now - n * MINUTE, now) >= n
    decreases n
  {
    hide Fires;
    if n > 0 {
      var from := now - n * MINUTE;
      EveryMinute(s, cal, now, n - 1);
      CountSplit(s, cal, from, from + MINUTE, now);
      WholeMinutes(now, n);
      assert Fires(s, cal, from + MINUTE);
    }
  }

  lemma WholeMinutes(now: int, n: int)
    requires now % MINUTE == 0
    ensures (now - n * MINUTE + MINUTE) % MINUTE == 0
  {
  }
}
