/**
 * Activities and the interval (overlap) test of the weekend planner.
 *
 * A clock time "HH:MM" is a minute of the day. The hook forms an end time by adding
 * the duration to `1970-01-01T<start>` and formatting the result back to "HH:MM", so
 * an end time wraps past midnight; `EndTime` writes that wrap out. Zero-padded "HH:MM"
 * strings compare like the minutes they denote, so the string comparisons of the
 * source become integer comparisons here.
 */
module Activities {
  import opened Wrappers

  const MinutesPerDay: int := 1440

  /** A clock time "HH:MM" as minutes after midnight. */
  type Minute = m: int | 0 <= m < MinutesPerDay

  /** The day keys of a schedule (`'friday'`, `'saturday'`, ...). */
  datatype Day = Monday | Tuesday | Wednesday | Thursday | Friday | Saturday | Sunday

  /**
   * One activity as the planner stores it. `category` is a string because the catalog
   * loader replaces "Indoor"/"Outdoor" with a group name; an empty `energyLevel` is the
   * source's absent (falsy) energy level.
   */
  datatype Activity = Activity(
    id: string,
    name: string,
    duration: nat,
    vibe: string,
    time: Minute,
    energyLevel: string,
    category: string,
    description: string)

  /** The clock time `duration` minutes after `start`, wrapping at midnight. */
  function EndTime(start: Minute, duration: nat): (e: Minute)
    ensures start + duration < MinutesPerDay ==> e == start + duration
    ensures (e - start - duration) % MinutesPerDay == 0
  {
    (start + duration) % MinutesPerDay
  }

  /**
   * The overlap test of `isConflict`: a candidate starting at `start` and lasting
   * `duration` minutes clashes with `existing` when it starts before the existing
   * entry ends and ends after the existing entry starts (both ends clock times).
   */
  predicate Clashes(start: Minute, duration: nat, existing: Activity) {
    start < EndTime(existing.time, existing.duration) && EndTime(start, duration) > existing.time
  }

  /** `candidate`, placed at `start`, conflicts with `existing`; an entry with the candidate's id never counts. */
  predicate ConflictsWith(candidate: Activity, start: Minute, existing: Activity) {
    existing.id != candidate.id && Clashes(start, candidate.duration, existing)
  }

  /** No entry of `list` conflicts with `candidate` placed at `start`. */
  predicate Fits(list: seq<Activity>, candidate: Activity, start: Minute) {
    forall e :: e in list ==> !ConflictsWith(candidate, start, e)
  }

  /**
   * `isConflict(day, activity, newTime)`: the first entry of a day's list that
   * conflicts with the candidate at `start`, or None.
   */
  function FirstConflict(list: seq<Activity>, candidate: Activity, start: Minute): (r: Option<Activity>)
    ensures r.None? <==> Fits(list, candidate, start)
    ensures r.Some? ==>
      exists i :: 0 <= i < |list| && list[i] == r.value
        && ConflictsWith(candidate, start, r.value)
        && forall j :: 0 <= j < i ==> !ConflictsWith(candidate, start, list[j])
  {
    if list == [] then None
    else if ConflictsWith(candidate, start, list[0]) then Some(list[0])
    else
      var r := FirstConflict(list[1..], candidate, start);
      assert forall e :: e in list ==> e == list[0] || e in list[1..];
      if r.Some? then
        var i :| 0 <= i < |list[1..]| && list[1..][i] == r.value && ConflictsWith(candidate, start, r.value)
          && forall j :: 0 <= j < i ==> !ConflictsWith(candidate, start, list[1..][j]);
        assert list[i + 1] == r.value;
        r
      else r
  }

  /** True when some entry of `list` carries `id` (`list.some(a => a.id === id)`). */
  predicate HasId(list: seq<Activity>, id: string) {
    exists e :: e in list && e.id == id
  }

  /** `list.find(a => a.id === id)`. */
  function FindById(list: seq<Activity>, id: string): (r: Option<Activity>)
    ensures r.None? <==> !HasId(list, id)
    ensures r.Some? ==> r.value.id == id
    ensures r.Some? ==>
      exists i :: 0 <= i < |list| && list[i] == r.value
        && forall j :: 0 <= j < i ==> list[j].id != id
  {
    if list == [] then None
    else if list[0].id == id then Some(list[0])
    else
      var r := FindById(list[1..], id);
      assert forall e :: e in list ==> e == list[0] || e in list[1..];
      if r.Some? then
        var i :| 0 <= i < |list[1..]| && list[1..][i] == r.value
          && forall j :: 0 <= j < i ==> list[1..][j].id != id;
        assert list[i + 1] == r.value;
        r
      else r
  }

  /** The interval `[start, start + duration)` meets `[existing.time, existing.time + existing.duration)`. */
  predicate IntervalsOverlap(start: int, duration: int, existing: Activity) {
    start < existing.time + existing.duration && start + duration > existing.time
  }

  /** Away from midnight the clock-time test is exactly interval overlap. */
  lemma ClashIsOverlapBeforeMidnight(start: Minute, duration: nat, existing: Activity)
    requires start + duration < MinutesPerDay
    requires existing.time + existing.duration < MinutesPerDay
    ensures Clashes(start, duration, existing) <==> IntervalsOverlap(start, duration, existing)
  {
  }

  /** The test is symmetric: a clashes with b exactly when b clashes with a. */
  lemma ConflictSymmetric(a: Activity, b: Activity)
    ensures ConflictsWith(a, a.time, b) <==> ConflictsWith(b, b.time, a)
  {
  }

  /**
   * An entry that ends after midnight never clashes with one it really overlaps later
   * that evening: 21:30 for 180 minutes (ending 00:30) against 20:30 for 180 minutes.
   */
  lemma MidnightWrapHidesOverlap()
    ensures var late := Activity("astronomy-night", "", 180, "", 1290, "", "", "");
            var show := Activity("live-performance", "", 180, "", 1230, "", "", "");
            IntervalsOverlap(late.time, late.duration, show) && !ConflictsWith(late, late.time, show)
  {
  }
}
