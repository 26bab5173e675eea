/**
 * `pushBucketToPlan`: every bucket activity, in ascending start-time order, goes to the
 * first day (from a rotating day index, wrapping round the option's days) on which it has
 * no conflict, unless its id is already planned. The conflict test reads the schedule
 * as it was before the flush, while the already-planned test reads the schedule being
 * built. The bucket is emptied afterwards, including the activities that found no day.
 */
module BucketFlush {
  import opened Wrappers
  import opened Seqs
  import opened Sorting
  import opened Activities
  import opened Schedules
  import opened Planner
  import opened Modular

  /** The flush's running state: the schedule being built and the rotating `dayIndex`. */
  datatype Cursor = Cursor(schedule: Schedule, dayIndex: nat)

  /** The sort key of the flush: the start time. */
  function TimeOf(a: Activity): int {
    a.time
  }

  /** The day tried at offset `j` from the day index: `days[(dayIndex + j) % days.length]`. */
  function Slot(days: seq<Day>, start: nat, j: nat): (d: Day)
    requires |days| > 0
    ensures d in days
  {
    days[(start + j) % |days|]
  }

  /** The first offset `j >= i` whose day has no conflict for `a` in the pre-flush schedule. */
  function Probe(pre: Schedule, days: seq<Day>, a: Activity, start: nat, i: nat): (r: Option<nat>)
    requires i <= |days|
    requires forall d :: d in days ==> d in pre.lists
    ensures r.Some? ==> i <= r.value < |days| && Fits(pre.lists[Slot(days, start, r.value)], a, a.time)
    ensures r.Some? ==> forall j :: i <= j < r.value ==> !Fits(pre.lists[Slot(days, start, j)], a, a.time)
    ensures r.None? ==> forall j :: i <= j < |days| ==> !Fits(pre.lists[Slot(days, start, j)], a, a.time)
    decreases |days| - i
  {
    if i == |days| then None
    else if FirstConflict(pre.lists[Slot(days, start, i)], a, a.time).None? then Some(i)
    else Probe(pre, days, a, start, i + 1)
  }

  /** The schedule being built has the pre-flush schedule's keys. */
  predicate Aligned(pre: Schedule, c: Cursor) {
    c.schedule.Valid() && c.schedule.keys == pre.keys
  }

  /**
   * One iteration of the flush: skip an activity whose id is planned anywhere in the
   * schedule being built; otherwise append it to the first conflict-free day from the
   * day index and move the day index to the day after that one.
   */
  function Step(pre: Schedule, days: seq<Day>, c: Cursor, a: Activity): (r: Cursor)
    requires pre.Valid() && Aligned(pre, c)
    requires forall d :: d in days ==> d in pre.lists
    ensures Aligned(pre, r)
    ensures IdScheduled(c.schedule, a.id) ==> r == c
    ensures !IdScheduled(c.schedule, a.id) ==>
      match Probe(pre, days, a, c.dayIndex, 0)
      case None => r == c
      case Some(j) =>
        var d := Slot(days, c.dayIndex, j);
        r.dayIndex == (c.dayIndex + j + 1) % |days| && r.schedule.lists == c.schedule.lists[d := c.schedule.lists[d] + [a]]
  {
    PlacedHasId(c.schedule, a.id);
    if HasId(Placed(c.schedule), a.id) then c
    else match Probe(pre, days, a, c.dayIndex, 0)
      case None => c
      case Some(j) =>
        var d := Slot(days, c.dayIndex, j);
        Cursor(Put(c.schedule, d, c.schedule.lists[d] + [a]), (c.dayIndex + j + 1) % |days|)
  }

  /** The `forEach` over the sorted bucket. */
  function Flush(pre: Schedule, days: seq<Day>, c: Cursor, items: seq<Activity>): (r: Cursor)
    requires pre.Valid() && Aligned(pre, c)
    requires forall d :: d in days ==> d in pre.lists
    ensures Aligned(pre, r)
    decreases |items|
  {
    if items == [] then c else Flush(pre, days, Step(pre, days, c, items[0]), items[1..])
  }

  /** Each day only grows at its end; whatever was there stays, in place. */
  predicate Grows(before: Schedule, after: Schedule) {
    forall d :: d in before.lists ==> d in after.lists && before.lists[d] <= after.lists[d]
  }

  lemma GrowsKeepsIds(before: Schedule, after: Schedule, id: string)
    requires Grows(before, after) && IdScheduled(before, id)
    ensures IdScheduled(after, id)
  {
    var d :| d in before.lists && HasId(before.lists[d], id);
    var e :| e in before.lists[d] && e.id == id;
    var k :| 0 <= k < |before.lists[d]| && before.lists[d][k] == e;
    assert after.lists[d][k] == e;
  }

  /** One step grows at most one day of the option, by `a`, where `a` fitted before the flush. */
  lemma StepFacts(pre: Schedule, days: seq<Day>, c: Cursor, a: Activity)
    requires pre.Valid() && Aligned(pre, c)
    requires forall d :: d in days ==> d in pre.lists
    ensures var s0, s1 := c.schedule, Step(pre, days, c, a).schedule;
      && Grows(s0, s1)
      && (forall d :: d in s0.lists ==> |s1.lists[d]| <= |s0.lists[d]| + 1)
      && (forall d, k :: d in s0.lists && |s0.lists[d]| <= k < |s1.lists[d]| ==>
            s1.lists[d][k] == a && d in days && Fits(pre.lists[d], a, a.time))
      && (IdScheduled(s1, a.id) || forall d :: d in days ==> !Fits(pre.lists[d], a, a.time))
  {
    var s1 := Step(pre, days, c, a).schedule;
    if IdScheduled(c.schedule, a.id) {
    } else if Probe(pre, days, a, c.dayIndex, 0).None? {
      forall d | d in days ensures !Fits(pre.lists[d], a, a.time) {
        var q :| 0 <= q < |days| && days[q] == d;
        var j := ModReach(c.dayIndex, q, |days|);
        assert Slot(days, c.dayIndex, j) == d;
      }
    } else {
      var d := Slot(days, c.dayIndex, Probe(pre, days, a, c.dayIndex, 0).value);
      assert a in s1.lists[d];
    }
  }

  /** Days only grow during a flush. */
  lemma {:induction false} FlushGrows(pre: Schedule, days: seq<Day>, c: Cursor, items: seq<Activity>)
    requires pre.Valid() && Aligned(pre, c)
    requires forall d :: d in days ==> d in pre.lists
    ensures Grows(c.schedule, Flush(pre, days, c, items).schedule)
    decreases |items|
  {
    if items != [] {
      var c1 := Step(pre, days, c, items[0]);
      StepFacts(pre, days, c, items[0]);
      FlushGrows(pre, days, c1, items[1..]);
    }
  }

  /**
   * Every entry a flush appends is one of the processed activities, on a day of the
   * option where it had no conflict before the flush.
   */
  lemma {:induction false} FlushAppends(pre: Schedule, days: seq<Day>, c: Cursor, items: seq<Activity>)
    requires pre.Valid() && Aligned(pre, c)
    requires forall d :: d in days ==> d in pre.lists
    ensures var s0, r := c.schedule, Flush(pre, days, c, items).schedule;
      forall d, k :: d in s0.lists && |s0.lists[d]| <= k < |r.lists[d]| ==>
        r.lists[d][k] in items && d in days && Fits(pre.lists[d], r.lists[d][k], r.lists[d][k].time)
    decreases |items|
  {
    if items != [] {
      var a, rest := items[0], items[1..];
      var c1 := Step(pre, days, c, a);
      StepFacts(pre, days, c, a);
      FlushAppends(pre, days, c1, rest);
      FlushGrows(pre, days, c1, rest);
      var s0, s1, r := c.schedule, c1.schedule, Flush(pre, days, c1, rest).schedule;
      assert Flush(pre, days, c, items) == Flush(pre, days, c1, rest);
      forall d, k | d in s0.lists && |s0.lists[d]| <= k < |r.lists[d]|
        ensures r.lists[d][k] in items && d in days && Fits(pre.lists[d], r.lists[d][k], r.lists[d][k].time)
      {
        assert d in s1.lists && s1.lists[d] <= r.lists[d];
        if k < |s1.lists[d]| {
          assert r.lists[d][k] == s1.lists[d][k];
        } else {
          assert d in s1.lists;
          assert r.lists[d][k] in rest;
        }
      }
    }
  }

  /** Every processed activity ends up planned, or no day of the option was free for it before the flush. */
  lemma {:induction false} FlushCovers(pre: Schedule, days: seq<Day>, c: Cursor, items: seq<Activity>)
    requires pre.Valid() && Aligned(pre, c)
    requires forall d :: d in days ==> d in pre.lists
    ensures var r := Flush(pre, days, c, items).schedule;
      forall a :: a in items ==> IdScheduled(r, a.id) || forall d :: d in days ==> !Fits(pre.lists[d], a, a.time)
    decreases |items|
  {
    if items != [] {
      var a, rest := items[0], items[1..];
      var c1 := Step(pre, days, c, a);
      StepFacts(pre, days, c, a);
      FlushCovers(pre, days, c1, rest);
      FlushGrows(pre, days, c1, rest);
      var r := Flush(pre, days, c1, rest).schedule;
      if IdScheduled(c1.schedule, a.id) {
        GrowsKeepsIds(c1.schedule, r, a.id);
      }
      assert forall x :: x in items ==> x == a || x in rest;
    }
  }

  /** A time-sorted input is appended in time order on every day. */
  lemma {:induction false} FlushOrdered(pre: Schedule, days: seq<Day>, c: Cursor, items: seq<Activity>)
    requires pre.Valid() && Aligned(pre, c)
    requires forall d :: d in days ==> d in pre.lists
    requires SortedBy(items, TimeOf)
    ensures var s0, r := c.schedule, Flush(pre, days, c, items).schedule;
      forall d, k1, k2 :: d in s0.lists && |s0.lists[d]| <= k1 < k2 < |r.lists[d]| ==>
        r.lists[d][k1].time <= r.lists[d][k2].time
    decreases |items|
  {
    if items != [] {
      var a, rest := items[0], items[1..];
      var c1 := Step(pre, days, c, a);
      assert SortedBy(rest, TimeOf) by {
        forall i, j | 0 <= i < j < |rest| ensures TimeOf(rest[i]) <= TimeOf(rest[j]) {
          assert rest[i] == items[i + 1] && rest[j] == items[j + 1];
        }
      }
      forall x | x in rest ensures a.time <= x.time {
        var i :| 0 <= i < |rest| && rest[i] == x;
        assert TimeOf(items[0]) <= TimeOf(items[i + 1]);
      }
      StepFacts(pre, days, c, a);
      FlushOrdered(pre, days, c1, rest);
      FlushAppends(pre, days, c1, rest);
      FlushGrows(pre, days, c1, rest);
      assert Flush(pre, days, c, items) == Flush(pre, days, c1, rest);
      OrderedJoin(c.schedule, c1.schedule, Flush(pre, days, c1, rest).schedule, a, rest);
    }
  }

  /**
   * One step of the ordering argument: when the first step appended only `a` and the
   * rest appended later, ordered, activities no earlier than `a`, the whole tail is ordered.
   */
  lemma OrderedJoin(s0: Schedule, s1: Schedule, r: Schedule, a: Activity, rest: seq<Activity>)
    requires Grows(s0, s1) && Grows(s1, r)
    requires forall d, k :: d in s0.lists && |s0.lists[d]| <= k < |s1.lists[d]| ==> s1.lists[d][k] == a
    requires forall d, k :: d in s1.lists && |s1.lists[d]| <= k < |r.lists[d]| ==> r.lists[d][k] in rest
    requires forall x :: x in rest ==> a.time <= x.time
    requires forall d, k1, k2 :: d in s1.lists && |s1.lists[d]| <= k1 < k2 < |r.lists[d]| ==>
      r.lists[d][k1].time <= r.lists[d][k2].time
    ensures forall d, k1, k2 :: d in s0.lists && |s0.lists[d]| <= k1 < k2 < |r.lists[d]| ==>
      r.lists[d][k1].time <= r.lists[d][k2].time
  {
    forall d, k1, k2 | d in s0.lists && |s0.lists[d]| <= k1 < k2 < |r.lists[d]|
      ensures r.lists[d][k1].time <= r.lists[d][k2].time
    {
      if k1 < |s1.lists[d]| {
        assert r.lists[d][k1] == s1.lists[d][k1] == a;
        if k2 < |s1.lists[d]| {
          assert r.lists[d][k2] == s1.lists[d][k2] == a;
        } else {
          assert r.lists[d][k2] in rest;
        }
      }
    }
  }

  /** On every day, the entries `r` has beyond `s` occur in that order in `items`. */
  ghost predicate AppendedInOrder(s: Schedule, r: Schedule, items: seq<Activity>) {
    forall d, k1, k2 :: d in s.lists && d in r.lists && |s.lists[d]| <= k1 < k2 < |r.lists[d]| ==>
      Before(items, r.lists[d][k1], r.lists[d][k2])
  }

  /** On every day, entries `r` has beyond `s` that share a start time occur in that order in `bucket`. */
  ghost predicate EqualTimesInOrder(s: Schedule, r: Schedule, bucket: seq<Activity>) {
    forall d, k1, k2 :: d in s.lists && d in r.lists && |s.lists[d]| <= k1 < k2 < |r.lists[d]| ==>
      (r.lists[d][k1].time == r.lists[d][k2].time ==> Before(bucket, r.lists[d][k1], r.lists[d][k2]))
  }

  /** Entries a flush appends to one day come in the order of the processed activities. */
  lemma {:induction false} FlushKeepsOrder(pre: Schedule, days: seq<Day>, c: Cursor, items: seq<Activity>)
    requires pre.Valid() && Aligned(pre, c)
    requires forall d :: d in days ==> d in pre.lists
    ensures AppendedInOrder(c.schedule, Flush(pre, days, c, items).schedule, items)
    decreases |items|
  {
    if items != [] {
      var a, rest := items[0], items[1..];
      assert items == [a] + rest;
      var c1 := Step(pre, days, c, a);
      StepFacts(pre, days, c, a);
      FlushKeepsOrder(pre, days, c1, rest);
      FlushAppends(pre, days, c1, rest);
      FlushGrows(pre, days, c1, rest);
      var s0, s1, r := c.schedule, c1.schedule, Flush(pre, days, c1, rest).schedule;
      assert Flush(pre, days, c, items) == Flush(pre, days, c1, rest);
      forall d, k1, k2 | d in s0.lists && d in r.lists && |s0.lists[d]| <= k1 < k2 < |r.lists[d]|
        ensures Before(items, r.lists[d][k1], r.lists[d][k2])
      {
        assert d in s1.lists;
        if k1 < |s1.lists[d]| {
          assert r.lists[d][k1] == s1.lists[d][k1] == a;
          assert r.lists[d][k2] in rest;
          HeadBefore(a, rest, r.lists[d][k2]);
        } else {
          BeforeCons(a, rest, r.lists[d][k1], r.lists[d][k2]);
        }
      }
    }
  }

  /**
   * `pushBucketToPlan()`: the bucket, stably sorted by start time, is flushed into the
   * schedule from day index 0 and the bucket is emptied.
   */
  function PushBucket(p: Plan, days: seq<Day>): (r: Plan)
    requires p.schedule.Valid()
    requires forall d :: d in days ==> d in p.schedule.lists
    ensures r.bucket == []
    ensures r.schedule.Valid() && r.schedule.keys == p.schedule.keys
    ensures Grows(p.schedule, r.schedule)
    ensures forall d, k :: d in p.schedule.lists && |p.schedule.lists[d]| <= k < |r.schedule.lists[d]| ==>
      var x := r.schedule.lists[d][k];
      x in p.bucket && d in days && Fits(p.schedule.lists[d], x, x.time)
    ensures forall d, k1, k2 :: d in p.schedule.lists && |p.schedule.lists[d]| <= k1 < k2 < |r.schedule.lists[d]| ==>
      r.schedule.lists[d][k1].time <= r.schedule.lists[d][k2].time
    ensures forall a :: a in p.bucket ==>
      IdScheduled(r.schedule, a.id) || forall d :: d in days ==> !Fits(p.schedule.lists[d], a, a.time)
  {
    var order := SortBy(p.bucket, TimeOf);
    assert forall a :: a in p.bucket <==> a in order by {
      assert forall a :: a in p.bucket <==> a in multiset(p.bucket);
      assert forall a :: a in order <==> a in multiset(order);
    }
    var start := Cursor(p.schedule, 0);
    FlushGrows(p.schedule, days, start, order);
    FlushAppends(p.schedule, days, start, order);
    FlushCovers(p.schedule, days, start, order);
    FlushOrdered(p.schedule, days, start, order);
    Plan(Flush(p.schedule, days, Cursor(p.schedule, 0), order).schedule, [])
  }

  /** Entries appended in the order of a stable sort of `bucket` keep equal times in bucket order. */
  lemma StableFromOrder(s: Schedule, r: Schedule, bucket: seq<Activity>, order: seq<Activity>)
    requires order == SortBy(bucket, TimeOf)
    requires AppendedInOrder(s, r, order)
    ensures EqualTimesInOrder(s, r, bucket)
  {
    forall d, k1, k2 | d in s.lists && d in r.lists && |s.lists[d]| <= k1 < k2 < |r.lists[d]|
      && r.lists[d][k1].time == r.lists[d][k2].time
      ensures Before(bucket, r.lists[d][k1], r.lists[d][k2])
    {
      var x, y := r.lists[d][k1], r.lists[d][k2];
      assert TimeOf(x) == TimeOf(y);
      SortByStable(bucket, TimeOf, x, y);
    }
  }

  /**
   * The flush is stable: two entries a flush puts on one day at the same start time
   * appear in that order in the bucket, as `Array.sort` keeps equal keys in place.
   */
  lemma PushBucketStable(p: Plan, days: seq<Day>)
    requires p.schedule.Valid()
    requires forall d :: d in days ==> d in p.schedule.lists
    ensures EqualTimesInOrder(p.schedule, PushBucket(p, days).schedule, p.bucket)
  {
    var s, order := p.schedule, SortBy(p.bucket, TimeOf);
    var r := Flush(s, days, Cursor(s, 0), order).schedule;
    assert PushBucket(p, days).schedule == r;
    FlushKeepsOrder(s, days, Cursor(s, 0), order);
    StableFromOrder(s, r, p.bucket, order);
  }

  /** An unplanned activity that fits the day at the day index goes there, and the day index advances by one. */
  lemma StepToDayIndex(pre: Schedule, days: seq<Day>, c: Cursor, a: Activity)
    requires pre.Valid() && Aligned(pre, c) && |days| > 0
    requires forall d :: d in days ==> d in pre.lists
    requires !IdScheduled(c.schedule, a.id) && Fits(pre.lists[Slot(days, c.dayIndex, 0)], a, a.time)
    ensures var d := Slot(days, c.dayIndex, 0);
            Step(pre, days, c, a) == Cursor(Put(c.schedule, d, c.schedule.lists[d] + [a]), (c.dayIndex + 1) % |days|)
  {
  }

  /** The Saturday-Sunday schedule with the given lists. */
  function Weekend(sat: seq<Activity>, sun: seq<Activity>): (s: Schedule)
    ensures s.Valid() && s.keys == [Saturday, Sunday]
  {
    Schedule([Saturday, Sunday], map[Saturday := sat, Sunday := sun])
  }

  lemma NotOnWeekend(sat: seq<Activity>, sun: seq<Activity>, id: string)
    requires forall e :: e in sat ==> e.id != id
    requires forall e :: e in sun ==> e.id != id
    ensures !IdScheduled(Weekend(sat, sun), id)
  {
  }

  lemma StepOntoSaturday(sat: seq<Activity>, sun: seq<Activity>, a: Activity)
    requires !IdScheduled(Weekend(sat, sun), a.id)
    ensures Step(Weekend([], []), [Saturday, Sunday], Cursor(Weekend(sat, sun), 0), a) == Cursor(Weekend(sat + [a], sun), 1)
  {
    var days, pre, c := [Saturday, Sunday], Weekend([], []), Cursor(Weekend(sat, sun), 0);
    assert Slot(days, 0, 0) == Saturday;
    StepToDayIndex(pre, days, c, a);
    assert Weekend(sat, sun).lists[Saturday := sat + [a]] == Weekend(sat + [a], sun).lists;
  }

  lemma StepOntoSunday(sat: seq<Activity>, sun: seq<Activity>, a: Activity)
    requires !IdScheduled(Weekend(sat, sun), a.id)
    ensures Step(Weekend([], []), [Saturday, Sunday], Cursor(Weekend(sat, sun), 1), a) == Cursor(Weekend(sat, sun + [a]), 0)
  {
    var days, pre, c := [Saturday, Sunday], Weekend([], []), Cursor(Weekend(sat, sun), 1);
    assert Slot(days, 1, 0) == Sunday;
    StepToDayIndex(pre, days, c, a);
    assert Weekend(sat, sun).lists[Sunday := sun + [a]] == Weekend(sat, sun + [a]).lists;
  }

  /** Three distinct activities flushed into an empty Saturday-Sunday schedule: Saturday gets the first and the third. */
  lemma ThreeIntoTwo(a: Activity, b: Activity, c: Activity)
    requires a.id != b.id && a.id != c.id && b.id != c.id
    ensures Flush(Weekend([], []), [Saturday, Sunday], Cursor(Weekend([], []), 0), [a, b, c])
              .schedule.lists[Saturday] == [a, c]
  {
    var days, pre := [Saturday, Sunday], Weekend([], []);
    NotOnWeekend([], [], a.id);
    StepOntoSaturday([], [], a);
    assert [] + [a] == [a];
    NotOnWeekend([a], [], b.id);
    StepOntoSunday([a], [], b);
    assert [] + [b] == [b];
    NotOnWeekend([a], [b], c.id);
    StepOntoSaturday([a], [b], c);
    assert [a] + [c] == [a, c];
    assert [a, b, c][1..] == [b, c] && [b, c][1..] == [c];
    calc {
      Flush(pre, days, Cursor(pre, 0), [a, b, c]);
      Flush(pre, days, Cursor(Weekend([a], []), 1), [b, c]);
      Flush(pre, days, Cursor(Weekend([a], [b]), 0), [c]);
      Flush(pre, days, Cursor(Weekend([a, c], [b]), 1), []);
    }
  }

  /** Three activities at the same start time, flushed into an empty Saturday-Sunday schedule, put the first and third on Saturday. */
  lemma FlushSameStart()
    ensures var a := Activity("a", "A", 60, "", 600, "", "", "");
            var b := Activity("b", "B", 60, "", 600, "", "", "");
            var c := Activity("c", "C", 60, "", 600, "", "", "");
            PushBucket(Plan(Weekend([], []), [a, b, c]), [Saturday, Sunday]).schedule.lists[Saturday] == [a, c]
  {
    var a := Activity("a", "A", 60, "", 600, "", "", "");
    var b := Activity("b", "B", 60, "", 600, "", "", "");
    var c := Activity("c", "C", 60, "", 600, "", "", "");
    var days := [Saturday, Sunday];
    var pre := Weekend([], []);
    SortByEqualKeys([a, b, c], TimeOf, 600);
    ThreeIntoTwo(a, b, c);
    assert PushBucket(Plan(pre, [a, b, c]), days).schedule == Flush(pre, days, Cursor(pre, 0), [a, b, c]).schedule;
  }

  /**
   * Because every conflict test reads the schedule from before the flush, three
   * activities at the same hour flushed into an empty two-day weekend leave two of
   * them overlapping on Saturday.
   */
  lemma FlushCanCreateOverlap()
    ensures var a := Activity("a", "A", 60, "", 600, "", "", "");
            var b := Activity("b", "B", 60, "", 600, "", "", "");
            var c := Activity("c", "C", 60, "", 600, "", "", "");
            var pre := Weekend([], []);
            NoOverlaps(pre) && !NoOverlaps(PushBucket(Plan(pre, [a, b, c]), [Saturday, Sunday]).schedule)
  {
    var a := Activity("a", "A", 60, "", 600, "", "", "");
    var c := Activity("c", "C", 60, "", 600, "", "", "");
    FlushSameStart();
    var r := PushBucket(Plan(Weekend([], []), [a, Activity("b", "B", 60, "", 600, "", "", ""), c]), [Saturday, Sunday]).schedule;
    assert r.lists[Saturday] == [a, c];
    ClashBreaksNoOverlaps(r, Saturday, a, c);
    EmptyWeekendNoOverlaps();
  }

  lemma EmptyWeekendNoOverlaps()
    ensures NoOverlaps(Weekend([], []))
  {
    var s := Weekend([], []);
    forall d | d in s.lists ensures Consistent(s.lists[d]) {
      assert s.lists[d] == [];
    }
  }
}
