/**
 * `handleWeekendOptionChange`: switching to another weekend length. The new schedule
 * has the new option's days in order, each keeping its old list (or starting empty).
 * The activities of the days the new option drops are then taken day by day, in key
 * order, and each goes to the first new day where it has no conflict with the schedule
 * being built, or to the bucket when there is none.
 */
module OptionChange {
  import opened Wrappers
  import opened Seqs
  import opened Activities
  import opened Schedules
  import opened Planner

  /** The schedule the change starts from: every new day with its old list, or an empty one. */
  function Carry(s: Schedule, newDays: seq<Day>): (r: Schedule)
    requires Distinct(newDays)
    ensures r.Valid() && r.keys == newDays
    ensures forall d :: d in newDays ==> r.lists[d] == if d in s.lists then s.lists[d] else []
  {
    Schedule(newDays, map d | d in newDays :: if d in s.lists then s.lists[d] else [])
  }

  /** The old keys, in their order, that the new option no longer has. */
  function RemovedDays(s: Schedule, newDays: seq<Day>): (r: seq<Day>)
    requires s.Valid()
    ensures Distinct(r)
    ensures forall d :: d in r <==> d in s.lists && d !in newDays
  {
    Filter(s.keys, (d: Day) => d !in newDays)
  }

  /**
   * The reassignment loop: each activity goes to the first of `days` on which it fits
   * the schedule built so far, or, when it fits nowhere, to the bucket through
   * `addActivityToBucket` (which gives an id-less activity the id `freshId`).
   */
  function Reassign(days: seq<Day>, p: Plan, items: seq<Activity>, freshId: string): (r: Plan)
    requires p.schedule.Valid()
    requires forall d :: d in days ==> d in p.schedule.lists
    ensures r.schedule.Valid() && r.schedule.keys == p.schedule.keys
    decreases |items|
  {
    if items == [] then p
    else
      var a := items[0];
      match FirstFreeDay(p.schedule, days, a)
      case Some(d) => Reassign(days, Plan(Put(p.schedule, d, p.schedule.lists[d] + [a]), p.bucket), items[1..], freshId)
      case None => Reassign(days, Plan(p.schedule, AddToBucket(p.bucket, a, None, freshId)), items[1..], freshId)
  }

  /** `handleWeekendOptionChange(option)` with `newDays` the new option's days. */
  function ChangeOption(p: Plan, newDays: seq<Day>, freshId: string): (r: Plan)
    requires p.schedule.Valid() && Distinct(newDays)
    ensures r.schedule.Valid() && r.schedule.keys == newDays
  {
    var start := Carry(p.schedule, newDays);
    Reassign(newDays, Plan(start, p.bucket), Flat(RemovedDays(p.schedule, newDays), p.schedule.lists), freshId)
  }

  /** `a` has no room on any of `days`: each of them holds an entry it conflicts with. */
  predicate FitsNowhere(s: Schedule, days: seq<Day>, a: Activity)
    requires forall d :: d in days ==> d in s.lists
  {
    forall d :: d in days ==> !Fits(s.lists[d], a, a.time)
  }

  /**
   * Entry `k` of day `days[i]` fits the entries before it on that day, and each day
   * before `days[i]` in `days` holds an entry it conflicts with.
   */
  predicate FirstFitAt(s: Schedule, days: seq<Day>, i: nat, k: nat)
    requires forall d :: d in days ==> d in s.lists
    requires i < |days| && k < |s.lists[days[i]]|
  {
    var e := s.lists[days[i]][k];
    Fits(s.lists[days[i]][..k], e, e.time) && forall j :: 0 <= j < i ==> !Fits(s.lists[days[j]], e, e.time)
  }

  /** The entry `addActivityToBucket(a)` appends: `a`, given `freshId` when it has no id. */
  function Bounced(a: Activity, freshId: string): Activity {
    a.(id := if a.id == "" then freshId else a.id)
  }

  /** Bucket entry `b` stands for one of `pool` that has no room on any of `days`. */
  predicate SentAway(s: Schedule, days: seq<Day>, pool: seq<Activity>, freshId: string, b: Activity)
    requires forall d :: d in days ==> d in s.lists
  {
    exists a :: a in pool && b == Bounced(a, freshId) && FitsNowhere(s, days, a)
  }

  /**
   * The placement rule, read off the final state `r` of a reassignment that started
   * from `p0`: every entry appended to a day is one of `items` that fitted the entries
   * before it there and had no room on any earlier day, and every entry appended to
   * the bucket is (up to its fresh id) one of `items` that has no room on any day.
   */
  predicate PlacedByRule(days: seq<Day>, p0: Plan, r: Plan, items: seq<Activity>, freshId: string)
    requires forall d :: d in days ==> d in p0.schedule.lists && d in r.schedule.lists
  {
    && (forall i, k :: 0 <= i < |days| && |p0.schedule.lists[days[i]]| <= k < |r.schedule.lists[days[i]]| ==>
          r.schedule.lists[days[i]][k] in items && FirstFitAt(r.schedule, days, i, k))
    && (forall k :: |p0.bucket| <= k < |r.bucket| ==> SentAway(r.schedule, days, items, freshId, r.bucket[k]))
  }

  /** An entry that conflicts with a list conflicts with every extension of it. */
  lemma NoFitGrows(xs: seq<Activity>, ys: seq<Activity>, a: Activity)
    requires xs <= ys && !Fits(xs, a, a.time)
    ensures !Fits(ys, a, a.time)
  {
    var e :| e in xs && ConflictsWith(a, a.time, e);
    var k :| 0 <= k < |xs| && xs[k] == e;
    assert ys[k] == e;
  }

  /** An activity with no room anywhere still has none once the days have grown. */
  lemma SentAwayGrows(s: Schedule, t: Schedule, days: seq<Day>, pool: seq<Activity>, freshId: string, b: Activity)
    requires forall d :: d in days ==> d in s.lists && d in t.lists && s.lists[d] <= t.lists[d]
    requires SentAway(s, days, pool, freshId, b)
    ensures SentAway(t, days, pool, freshId, b)
  {
    var a :| a in pool && b == Bounced(a, freshId) && FitsNowhere(s, days, a);
    forall d | d in days ensures !Fits(t.lists[d], a, a.time) {
      NoFitGrows(s.lists[d], t.lists[d], a);
    }
    assert FitsNowhere(t, days, a);
  }

  /** Appending to day lists keeps the placement rule true of the entries placed so far. */
  lemma GrowKeepsRule(days: seq<Day>, p0: Plan, p: Plan, q: Plan, pool: seq<Activity>, freshId: string)
    requires forall d :: d in days ==> d in p0.schedule.lists && d in p.schedule.lists && d in q.schedule.lists
    requires forall d :: d in days ==> p.schedule.lists[d] <= q.schedule.lists[d]
    requires q.bucket == p.bucket
    requires PlacedByRule(days, p0, p, pool, freshId)
    ensures forall i, k :: 0 <= i < |days| && |p0.schedule.lists[days[i]]| <= k < |p.schedule.lists[days[i]]| ==>
      q.schedule.lists[days[i]][k] in pool && FirstFitAt(q.schedule, days, i, k)
    ensures forall k :: |p0.bucket| <= k < |q.bucket| ==> SentAway(q.schedule, days, pool, freshId, q.bucket[k])
  {
    forall i, k | 0 <= i < |days| && |p0.schedule.lists[days[i]]| <= k < |p.schedule.lists[days[i]]|
      ensures q.schedule.lists[days[i]][k] in pool && FirstFitAt(q.schedule, days, i, k)
    {
      var d := days[i];
      var e := p.schedule.lists[d][k];
      assert FirstFitAt(p.schedule, days, i, k);
      assert q.schedule.lists[d][k] == e;
      assert q.schedule.lists[d][..k] == p.schedule.lists[d][..k];
      forall j | 0 <= j < i ensures !Fits(q.schedule.lists[days[j]], e, e.time) {
        NoFitGrows(p.schedule.lists[days[j]], q.schedule.lists[days[j]], e);
      }
    }
    forall k | |p0.bucket| <= k < |q.bucket| ensures SentAway(q.schedule, days, pool, freshId, q.bucket[k]) {
      SentAwayGrows(p.schedule, q.schedule, days, pool, freshId, p.bucket[k]);
    }
  }

  /** Placing `a` on the first day where it fits keeps the placement rule. */
  lemma PlaceKeepsRule(days: seq<Day>, p0: Plan, p: Plan, a: Activity, pool: seq<Activity>, freshId: string)
    requires p.schedule.Valid() && Distinct(days)
    requires forall d :: d in days ==> d in p0.schedule.lists && d in p.schedule.lists
    requires forall d :: d in days ==> p0.schedule.lists[d] <= p.schedule.lists[d]
    requires a in pool && PlacedByRule(days, p0, p, pool, freshId)
    requires FirstFreeDay(p.schedule, days, a).Some?
    ensures var d := FirstFreeDay(p.schedule, days, a).value;
      var q := Plan(Put(p.schedule, d, p.schedule.lists[d] + [a]), p.bucket);
      && (forall d :: d in days ==> p0.schedule.lists[d] <= q.schedule.lists[d])
      && PlacedByRule(days, p0, q, pool, freshId)
  {
    var s := p.schedule;
    var d := FirstFreeDay(s, days, a).value;
    var q := Plan(Put(s, d, s.lists[d] + [a]), p.bucket);
    var i0 :| 0 <= i0 < |days| && days[i0] == d && Fits(s.lists[d], a, a.time)
      && forall j :: 0 <= j < i0 ==> !Fits(s.lists[days[j]], a, a.time);
    GrowKeepsRule(days, p0, p, q, pool, freshId);
    forall i, k | 0 <= i < |days| && |p0.schedule.lists[days[i]]| <= k < |q.schedule.lists[days[i]]|
      ensures q.schedule.lists[days[i]][k] in pool && FirstFitAt(q.schedule, days, i, k)
    {
      if k >= |s.lists[days[i]]| {
        assert days[i] == d && k == |s.lists[d]|;
        assert i == i0;
        assert q.schedule.lists[d][k] == a && q.schedule.lists[d][..k] == s.lists[d];
        forall j | 0 <= j < i ensures !Fits(q.schedule.lists[days[j]], a, a.time) {
          assert days[j] != d;
        }
      }
    }
  }

  /** Sending `a`, which fits no day, to the bucket keeps the placement rule. */
  lemma BounceKeepsRule(days: seq<Day>, p0: Plan, p: Plan, a: Activity, pool: seq<Activity>, freshId: string)
    requires forall d :: d in days ==> d in p0.schedule.lists && d in p.schedule.lists
    requires p0.bucket <= p.bucket
    requires a in pool && PlacedByRule(days, p0, p, pool, freshId)
    requires FitsNowhere(p.schedule, days, a)
    ensures var q := Plan(p.schedule, AddToBucket(p.bucket, a, None, freshId));
      p0.bucket <= q.bucket && PlacedByRule(days, p0, q, pool, freshId)
  {
    var q := Plan(p.schedule, AddToBucket(p.bucket, a, None, freshId));
    forall k | |p0.bucket| <= k < |q.bucket| ensures SentAway(q.schedule, days, pool, freshId, q.bucket[k]) {
      if k < |p.bucket| {
        assert q.bucket[k] == p.bucket[k];
      } else {
        assert q.bucket[k] == Bounced(a, freshId);
      }
    }
  }

  /** One more activity, placed or sent to the bucket, keeps the placement rule. */
  lemma StepKeepsRule(days: seq<Day>, p0: Plan, p: Plan, a: Activity, pool: seq<Activity>, freshId: string)
    requires p.schedule.Valid() && Distinct(days)
    requires forall d :: d in days ==> d in p0.schedule.lists && d in p.schedule.lists
    requires forall d :: d in days ==> p0.schedule.lists[d] <= p.schedule.lists[d]
    requires p0.bucket <= p.bucket
    requires a in pool && PlacedByRule(days, p0, p, pool, freshId)
    ensures var q := Reassign(days, p, [a], freshId);
      && (forall d :: d in days ==> p0.schedule.lists[d] <= q.schedule.lists[d])
      && p0.bucket <= q.bucket
      && PlacedByRule(days, p0, q, pool, freshId)
  {
    assert [a][1..] == [];
    if FirstFreeDay(p.schedule, days, a).Some? {
      PlaceKeepsRule(days, p0, p, a, pool, freshId);
    } else {
      BounceKeepsRule(days, p0, p, a, pool, freshId);
    }
  }

  /** Reassigning `[a] + rest` is reassigning `a`, then `rest`. */
  lemma ReassignCons(days: seq<Day>, p: Plan, items: seq<Activity>, freshId: string)
    requires p.schedule.Valid() && items != []
    requires forall d :: d in days ==> d in p.schedule.lists
    ensures Reassign(days, p, items, freshId) == Reassign(days, Reassign(days, p, [items[0]], freshId), items[1..], freshId)
  {
    assert [items[0]][1..] == [];
  }

  lemma {:induction false} ReassignKeepsRule(days: seq<Day>, p0: Plan, p: Plan, items: seq<Activity>, pool: seq<Activity>, freshId: string)
    requires p.schedule.Valid() && Distinct(days)
    requires forall d :: d in days ==> d in p0.schedule.lists && d in p.schedule.lists
    requires forall d :: d in days ==> p0.schedule.lists[d] <= p.schedule.lists[d]
    requires p0.bucket <= p.bucket
    requires forall a :: a in items ==> a in pool
    requires PlacedByRule(days, p0, p, pool, freshId)
    ensures PlacedByRule(days, p0, Reassign(days, p, items, freshId), pool, freshId)
    decreases |items|
  {
    if items != [] {
      var q := Reassign(days, p, [items[0]], freshId);
      StepKeepsRule(days, p0, p, items[0], pool, freshId);
      assert forall a :: a in items[1..] ==> a in items;
      ReassignKeepsRule(days, p0, q, items[1..], pool, freshId);
      ReassignCons(days, p, items, freshId);
    }
  }

  /**
   * The reassignment rule: each activity goes to the first of `days` on which it has no
   * conflict with the schedule being built, and to the bucket when there is none.
   * Since the loop only appends, a day it found taken stays taken, so the rule can
   * be read off the final state.
   */
  lemma ReassignFollowsRule(days: seq<Day>, p: Plan, items: seq<Activity>, freshId: string)
    requires p.schedule.Valid() && Distinct(days)
    requires forall d :: d in days ==> d in p.schedule.lists
    ensures PlacedByRule(days, p, Reassign(days, p, items, freshId), items, freshId)
  {
    ReassignKeepsRule(days, p, p, items, items, freshId);
  }

  /**
   * After an option change, each activity of a dropped day sits on the first new day
   * on which it fitted, or in the bucket when no new day has room for it.
   */
  lemma ChangeOptionFollowsRule(p: Plan, newDays: seq<Day>, freshId: string)
    requires p.schedule.Valid() && Distinct(newDays)
    ensures PlacedByRule(newDays, Plan(Carry(p.schedule, newDays), p.bucket), ChangeOption(p, newDays, freshId),
                         Flat(RemovedDays(p.schedule, newDays), p.schedule.lists), freshId)
  {
    ReassignFollowsRule(newDays, Plan(Carry(p.schedule, newDays), p.bucket),
                        Flat(RemovedDays(p.schedule, newDays), p.schedule.lists), freshId);
  }

  /** Reassignment only appends: to the end of day lists and to the end of the bucket. */
  lemma {:induction false} ReassignGrows(days: seq<Day>, p: Plan, items: seq<Activity>, freshId: string)
    requires p.schedule.Valid()
    requires forall d :: d in days ==> d in p.schedule.lists
    ensures var r := Reassign(days, p, items, freshId);
      && (forall d :: d in p.schedule.lists ==> p.schedule.lists[d] <= r.schedule.lists[d])
      && p.bucket <= r.bucket
    decreases |items|
  {
    if items != [] {
      var a := items[0];
      match FirstFreeDay(p.schedule, days, a)
      case Some(d) =>
        var q := Plan(Put(p.schedule, d, p.schedule.lists[d] + [a]), p.bucket);
        ReassignGrows(days, q, items[1..], freshId);
      case None =>
        var q := Plan(p.schedule, AddToBucket(p.bucket, a, None, freshId));
        ReassignGrows(days, q, items[1..], freshId);
    }
  }

  /** Reassignment tests each activity against the schedule being built, so it keeps every day free of overlaps. */
  lemma {:induction false} ReassignKeepsNoOverlaps(days: seq<Day>, p: Plan, items: seq<Activity>, freshId: string)
    requires p.schedule.Valid() && NoOverlaps(p.schedule)
    requires forall d :: d in days ==> d in p.schedule.lists
    ensures NoOverlaps(Reassign(days, p, items, freshId).schedule)
    decreases |items|
  {
    if items != [] {
      var a := items[0];
      match FirstFreeDay(p.schedule, days, a)
      case Some(d) =>
        AppendFitting(p.schedule.lists[d], a);
        var q := Plan(Put(p.schedule, d, p.schedule.lists[d] + [a]), p.bucket);
        ReassignKeepsNoOverlaps(days, q, items[1..], freshId);
      case None =>
        var q := Plan(p.schedule, AddToBucket(p.bucket, a, None, freshId));
        ReassignKeepsNoOverlaps(days, q, items[1..], freshId);
    }
  }

  /** Appending one entry to a day adds one occurrence of it to the schedule. */
  lemma CountAppend(s: Schedule, d: Day, a: Activity, x: Activity)
    requires s.Valid() && d in s.lists
    ensures Count(Put(s, d, s.lists[d] + [a]), x) == Count(s, x) + (if x == a then 1 else 0)
  {
    OccurrencesUpdate(s.lists, s.lists.Keys, d, s.lists[d] + [a], x);
    assert Put(s, d, s.lists[d] + [a]).lists.Keys == s.lists.Keys;
  }

  /** Every reassigned activity ends up either on a day or in the bucket, exactly once. */
  lemma {:induction false} ReassignCount(days: seq<Day>, p: Plan, items: seq<Activity>, freshId: string, x: Activity)
    requires p.schedule.Valid()
    requires forall d :: d in days ==> d in p.schedule.lists
    requires forall a :: a in items ==> a.id != ""
    ensures var r := Reassign(days, p, items, freshId);
      Count(r.schedule, x) + multiset(r.bucket)[x] == Count(p.schedule, x) + multiset(p.bucket)[x] + multiset(items)[x]
    decreases |items|
  {
    if items != [] {
      var a, rest := items[0], items[1..];
      assert items == [a] + rest;
      assert forall b :: b in rest ==> b in items;
      match FirstFreeDay(p.schedule, days, a)
      case Some(d) =>
        var q := Plan(Put(p.schedule, d, p.schedule.lists[d] + [a]), p.bucket);
        ReassignCount(days, q, rest, freshId, x);
        CountAppend(p.schedule, d, a, x);
      case None =>
        var q := Plan(p.schedule, AddToBucket(p.bucket, a, None, freshId));
        assert q.bucket == p.bucket + [a];
        ReassignCount(days, q, rest, freshId, x);
    }
  }

  /** The starting schedule holds exactly the old activities of the days the two options share. */
  lemma CarryCount(s: Schedule, newDays: seq<Day>, x: Activity)
    requires Distinct(newDays)
    ensures Count(Carry(s, newDays), x) == Occurrences(s.lists, (set d | d in s.lists && d in newDays), x)
  {
    var c := Carry(s, newDays);
    var kept := set d | d in s.lists && d in newDays;
    assert forall d :: Part(c.lists, c.lists.Keys, d, x) == Part(s.lists, kept, d, x) by {
      forall d ensures Part(c.lists, c.lists.Keys, d, x) == Part(s.lists, kept, d, x) {
        if d in newDays && d !in s.lists {
          assert c.lists[d] == [];
        }
      }
    }
  }

  /** The removed days' activities, flattened in order, are exactly those of the removed days. */
  lemma RemovedCount(s: Schedule, newDays: seq<Day>, x: Activity)
    requires s.Valid()
    ensures multiset(Flat(RemovedDays(s, newDays), s.lists))[x] == Occurrences(s.lists, (set d | d in s.lists && d !in newDays), x)
  {
    var removed := RemovedDays(s, newDays);
    FlatContents(removed, s.lists);
    assert (set d | d in removed) == (set d | d in s.lists && d !in newDays);
  }

  /**
   * No activity is lost or duplicated: every activity occurs as often in the new
   * schedule and bucket together as in the old ones, provided the removed days' activities
   * carry ids (an id-less one is renamed on its way to the bucket).
   */
  lemma ChangeOptionConserves(p: Plan, newDays: seq<Day>, freshId: string, x: Activity)
    requires p.schedule.Valid() && Distinct(newDays)
    requires forall d, a :: d in p.schedule.lists && a in p.schedule.lists[d] ==> a.id != ""
    ensures var r := ChangeOption(p, newDays, freshId);
      Count(r.schedule, x) + multiset(r.bucket)[x] == Count(p.schedule, x) + multiset(p.bucket)[x]
  {
    var s := p.schedule;
    var removed := RemovedDays(s, newDays);
    var items := Flat(removed, s.lists);
    var start := Plan(Carry(s, newDays), p.bucket);
    var r := Reassign(newDays, start, items, freshId);
    var kept, gone := set d | d in s.lists && d in newDays, set d | d in s.lists && d !in newDays;
    assert ChangeOption(p, newDays, freshId) == r;
    assert Count(r.schedule, x) + multiset(r.bucket)[x]
        == Count(start.schedule, x) + multiset(p.bucket)[x] + multiset(items)[x] by {
      FlatHasIds(removed, s.lists);
      ReassignCount(newDays, start, items, freshId, x);
    }
    assert Count(start.schedule, x) == Occurrences(s.lists, kept, x) by {
      CarryCount(s, newDays, x);
    }
    assert multiset(items)[x] == Occurrences(s.lists, gone, x) by {
      RemovedCount(s, newDays, x);
    }
    SplitCount(s, newDays, x);
  }

  /** The days the two options share and the days dropped split the old days' count. */
  lemma SplitCount(s: Schedule, newDays: seq<Day>, x: Activity)
    ensures Count(s, x) == Occurrences(s.lists, (set d | d in s.lists && d in newDays), x)
                         + Occurrences(s.lists, (set d | d in s.lists && d !in newDays), x)
  {
    var kept, gone := set d | d in s.lists && d in newDays, set d | d in s.lists && d !in newDays;
    OccurrencesUnion(s.lists, kept, gone, x);
    assert kept + gone == s.lists.Keys;
  }

  /** Every entry of the flattened days is an entry of one of those days. */
  lemma {:induction false} FlatHasIds(keys: seq<Day>, lists: map<Day, seq<Activity>>)
    requires forall d :: d in keys ==> d in lists
    requires forall d, a :: d in lists && a in lists[d] ==> a.id != ""
    ensures forall a :: a in Flat(keys, lists) ==> a.id != ""
  {
    if keys != [] {
      FlatHasIds(keys[1..], lists);
    }
  }

  /**
   * The days the two options share keep their lists as a prefix (reassigned activities
   * may be appended after them); the bucket only grows; and a schedule without overlaps
   * stays without overlaps.
   */
  lemma ChangeOptionKeeps(p: Plan, newDays: seq<Day>, freshId: string)
    requires p.schedule.Valid() && Distinct(newDays)
    ensures var r := ChangeOption(p, newDays, freshId);
      && r.schedule.Valid() && r.schedule.keys == newDays
      && (forall d :: d in newDays && d in p.schedule.lists ==> p.schedule.lists[d] <= r.schedule.lists[d])
      && p.bucket <= r.bucket
      && (NoOverlaps(p.schedule) ==> NoOverlaps(r.schedule))
  {
    var start := Carry(p.schedule, newDays);
    var items := Flat(RemovedDays(p.schedule, newDays), p.schedule.lists);
    ReassignGrows(newDays, Plan(start, p.bucket), items, freshId);
    if NoOverlaps(p.schedule) {
      assert NoOverlaps(start);
      ReassignKeepsNoOverlaps(newDays, Plan(start, p.bucket), items, freshId);
    }
  }

  /** Re-selecting the days the schedule already has changes nothing. */
  lemma ChangeToSameDays(p: Plan, freshId: string)
    requires p.schedule.Valid()
    ensures ChangeOption(p, p.schedule.keys, freshId) == p
  {
    var s := p.schedule;
    assert RemovedDays(s, s.keys) == [] by {
      var removed := RemovedDays(s, s.keys);
      assert forall d :: d !in removed;
    }
    assert Carry(s, s.keys).lists == s.lists;
  }
}
