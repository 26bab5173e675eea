/**
 * The single-activity operations of the weekend planner hook: placing an activity on a
 * day or on the first free day, moving it between days by drag and drop, removing it,
 * editing its time, and the activity bucket's own add, remove and time-edit operations.
 *
 * Every operation is a pure function from the planner state to a new state; a rejected
 * operation returns a `PlanError` and the caller keeps its state.
 */
module Planner {
  import opened Wrappers
  import opened Seqs
  import opened Activities
  import opened Schedules

  /** The hook's state that planning works on: the schedule and the activity bucket. */
  datatype Plan = Plan(schedule: Schedule, bucket: seq<Activity>)

  /** Why an operation left the state unchanged (the source reports each with a toast). */
  datatype PlanError = NoSlot | AlreadyOnDay | Conflict(day: Day, other: Activity) | NotFound

  /** Where `addActivity` placed an activity, and the resulting schedule. */
  datatype Placement = Placement(day: Day, schedule: Schedule)

  /** No entry of the list conflicts with another entry of it at its own time. */
  predicate Consistent(list: seq<Activity>) {
    forall x, y :: x in list && y in list ==> !ConflictsWith(x, x.time, y)
  }

  /** No day of the schedule holds two conflicting entries. */
  predicate NoOverlaps(s: Schedule) {
    forall d :: d in s.lists ==> Consistent(s.lists[d])
  }

  /** Two entries of one day that conflict break the invariant. */
  lemma ClashBreaksNoOverlaps(s: Schedule, d: Day, x: Activity, y: Activity)
    requires d in s.lists && x in s.lists[d] && y in s.lists[d] && ConflictsWith(x, x.time, y)
    ensures !NoOverlaps(s)
  {
  }

  /** Replacing one day's list by a consistent one keeps the schedule free of overlaps. */
  lemma PutConsistent(s: Schedule, d: Day, xs: seq<Activity>)
    requires s.Valid() && NoOverlaps(s) && Consistent(xs)
    ensures NoOverlaps(Put(s, d, xs))
  {
  }

  /** A two-entry list is consistent when neither entry conflicts with the other. */
  lemma ConsistentPair(x: Activity, y: Activity)
    requires !ConflictsWith(x, x.time, y) && !ConflictsWith(y, y.time, x)
    ensures Consistent([x, y])
  {
  }

  /** Appending an entry that fits a consistent list keeps it consistent, since the test is symmetric. */
  lemma {:induction false} AppendFitting(list: seq<Activity>, a: Activity)
    requires Consistent(list) && Fits(list, a, a.time)
    ensures Consistent(list + [a])
  {
    forall x, y | x in list + [a] && y in list + [a]
      ensures !ConflictsWith(x, x.time, y)
    {
      if x == a && y in list {
        assert !ConflictsWith(a, a.time, y);
      } else if y == a && x in list {
        assert !ConflictsWith(a, a.time, x);
        ConflictSymmetric(a, x);
      }
    }
  }

  /** `weekendOptions[option].days.find(d => !isConflict(d, activity))`. */
  function FirstFreeDay(s: Schedule, days: seq<Day>, a: Activity): (r: Option<Day>)
    requires forall d :: d in days ==> d in s.lists
    ensures r.None? <==> forall d :: d in days ==> !Fits(s.lists[d], a, a.time)
    ensures r.Some? ==>
      exists i :: 0 <= i < |days| && days[i] == r.value && Fits(s.lists[r.value], a, a.time)
        && forall j :: 0 <= j < i ==> !Fits(s.lists[days[j]], a, a.time)
  {
    if days == [] then None
    else if FirstConflict(s.lists[days[0]], a, a.time).None? then Some(days[0])
    else
      var rest := days[1..];
      var r := FirstFreeDay(s, rest, a);
      if r.Some? then
        var i :| 0 <= i < |rest| && rest[i] == r.value && Fits(s.lists[r.value], a, a.time)
          && forall j :: 0 <= j < i ==> !Fits(s.lists[rest[j]], a, a.time);
        assert days[i + 1] == r.value;
        assert forall j :: 0 < j < i + 1 ==> days[j] == rest[j - 1];
        r
      else
        assert forall d :: d in days ==> !Fits(s.lists[d], a, a.time) by {
          forall d | d in days ensures !Fits(s.lists[d], a, a.time) {
            if d != days[0] {
              assert d in rest;
            }
          }
        }
        r
  }

  /**
   * The placement step of `addActivity` once the day is known: a no-op when the id is
   * already on that day, a rejection when it conflicts there, and otherwise the
   * activity appended to that day's list.
   */
  function PlaceOn(s: Schedule, a: Activity, d: Day): (r: Result<Placement, PlanError>)
    requires s.Valid() && d in s.lists
    ensures r == Failure(AlreadyOnDay) <==> HasId(s.lists[d], a.id)
    ensures r.Success? <==> !HasId(s.lists[d], a.id) && Fits(s.lists[d], a, a.time)
    ensures r.Failure? && r.error.Conflict? ==>
      r.error.day == d && r.error.other in s.lists[d] && ConflictsWith(a, a.time, r.error.other)
    ensures r.Failure? ==> r.error.AlreadyOnDay? || r.error.Conflict?
    ensures r.Success? ==>
      r.value.day == d && r.value.schedule.Valid() && r.value.schedule.keys == s.keys
      && r.value.schedule.lists == s.lists[d := s.lists[d] + [a]]
  {
    if HasId(s.lists[d], a.id) then Failure(AlreadyOnDay)
    else match FirstConflict(s.lists[d], a, a.time)
      case Some(c) => Failure(Conflict(d, c))
      case None => Success(Placement(d, Put(s, d, s.lists[d] + [a])))
  }

  /**
   * `addActivity(activity, day)`. Without a day, the activity goes to the first day of
   * the active weekend option (`days`) on which it has no conflict; when there is none,
   * the schedule is kept. With a day, that day is used.
   */
  function AddActivity(s: Schedule, days: seq<Day>, a: Activity, target: Option<Day>): (r: Result<Placement, PlanError>)
    requires s.Valid()
    requires target.Some? ==> target.value in s.lists
    requires target.None? ==> forall d :: d in days ==> d in s.lists
    ensures target.Some? ==> r == PlaceOn(s, a, target.value)
    ensures target.None? ==> (r == Failure(NoSlot) <==> forall d :: d in days ==> !Fits(s.lists[d], a, a.time))
    ensures target.None? && r != Failure(NoSlot) ==>
      exists i :: 0 <= i < |days| && r == PlaceOn(s, a, days[i]) && Fits(s.lists[days[i]], a, a.time)
        && forall j :: 0 <= j < i ==> !Fits(s.lists[days[j]], a, a.time)
    ensures target.None? ==> !(r.Failure? && r.error.Conflict?)
  {
    match target
    case Some(d) => PlaceOn(s, a, d)
    case None =>
      match FirstFreeDay(s, days, a)
      case None => Failure(NoSlot)
      case Some(d) => PlaceOn(s, a, d)
  }

  /** A successful placement keeps every day free of overlaps. */
  lemma AddPreservesNoOverlaps(s: Schedule, days: seq<Day>, a: Activity, target: Option<Day>)
    requires s.Valid() && NoOverlaps(s)
    requires target.Some? ==> target.value in s.lists
    requires target.None? ==> forall d :: d in days ==> d in s.lists
    ensures var r := AddActivity(s, days, a, target);
            r.Success? ==> NoOverlaps(r.value.schedule)
  {
    var r := AddActivity(s, days, a, target);
    if r.Success? {
      AppendFitting(s.lists[r.value.day], a);
    }
  }

  /** Adding the same activity to the day it was just placed on is a no-op. */
  lemma AddTwiceIsNoOp(s: Schedule, days: seq<Day>, a: Activity, target: Option<Day>)
    requires s.Valid()
    requires target.Some? ==> target.value in s.lists
    requires target.None? ==> forall d :: d in days ==> d in s.lists
    ensures var r := AddActivity(s, days, a, target);
            r.Success? ==> AddActivity(r.value.schedule, days, a, Some(r.value.day)) == Failure(AlreadyOnDay)
  {
    var r := AddActivity(s, days, a, target);
    if r.Success? {
      var t := r.value.schedule;
      assert a in t.lists[r.value.day];
    }
  }

  /**
   * The duplicate check only looks at the target day: an activity already planned on
   * one day is placed again on another day where it fits.
   */
  lemma DuplicateCheckIsDayLocal(s: Schedule, a: Activity, d1: Day, d2: Day)
    requires s.Valid() && d1 in s.lists && d2 in s.lists && d1 != d2
    requires HasId(s.lists[d1], a.id) && !HasId(s.lists[d2], a.id) && Fits(s.lists[d2], a, a.time)
    ensures var r := AddActivity(s, [], a, Some(d2));
            r.Success? && HasId(r.value.schedule.lists[d1], a.id) && HasId(r.value.schedule.lists[d2], a.id)
  {
    var t := AddActivity(s, [], a, Some(d2)).value.schedule;
    assert a in t.lists[d2];
  }

  /** `list.filter(a => a.id !== id)`. */
  function Without(list: seq<Activity>, id: string): (r: seq<Activity>)
    ensures !HasId(r, id)
    ensures forall e: Activity :: e.id != id ==> multiset(r)[e] == multiset(list)[e]
    ensures SubsequenceOf(r, list)
  {
    Filter(list, (e: Activity) => e.id != id)
  }

  /** Dropping an id that `list` does not carry from `list + [a]` gives back `list`. */
  lemma {:induction false} WithoutAppended(list: seq<Activity>, a: Activity)
    requires !HasId(list, a.id)
    ensures Without(list + [a], a.id) == list
  {
    if list == [] {
      assert [] + [a] == [a];
      assert [a][1..] == [];
    } else {
      assert (list + [a])[0] == list[0];
      assert (list + [a])[1..] == list[1..] + [a];
      assert list[0] in list;
      assert !HasId(list[1..], a.id) by {
        forall e | e in list[1..] ensures e.id != a.id {
          assert e in list;
        }
      }
      WithoutAppended(list[1..], a);
    }
  }

  /** `removeActivity(id, day)`: every entry with that id leaves that day; nothing else changes. */
  function RemoveActivity(s: Schedule, id: string, d: Day): (r: Schedule)
    requires s.Valid() && d in s.lists
    ensures r.Valid() && r.keys == s.keys
    ensures !HasId(r.lists[d], id)
    ensures forall e: Activity :: e.id != id ==> multiset(r.lists[d])[e] == multiset(s.lists[d])[e]
    ensures SubsequenceOf(r.lists[d], s.lists[d])
    ensures forall d' :: d' in s.lists && d' != d ==> r.lists[d'] == s.lists[d']
  {
    Put(s, d, Without(s.lists[d], id))
  }

  /** Removal takes out exactly the entries with that id on that day. */
  lemma RemoveCount(s: Schedule, id: string, d: Day, x: Activity)
    requires s.Valid() && d in s.lists
    ensures Count(RemoveActivity(s, id, d), x) + (if x.id == id then multiset(s.lists[d])[x] else 0) == Count(s, x)
  {
    var r := RemoveActivity(s, id, d);
    OccurrencesUpdate(s.lists, s.lists.Keys, d, r.lists[d], x);
    assert r.lists.Keys == s.lists.Keys;
  }

  /** Removing an activity right after appending it to a day without its id restores the schedule. */
  lemma RemoveUndoesAppend(s: Schedule, a: Activity, d: Day)
    requires s.Valid() && d in s.lists && !HasId(s.lists[d], a.id)
    ensures RemoveActivity(Put(s, d, s.lists[d] + [a]), a.id, d) == s
  {
    var t := Put(s, d, s.lists[d] + [a]);
    WithoutAppended(s.lists[d], a);
    assert t.lists[d := s.lists[d]] == s.lists;
  }

  /** Removing what was just placed restores the schedule. */
  lemma RemoveUndoesAdd(s: Schedule, days: seq<Day>, a: Activity, target: Option<Day>)
    requires s.Valid()
    requires target.Some? ==> target.value in s.lists
    requires target.None? ==> forall d :: d in days ==> d in s.lists
    ensures var r := AddActivity(s, days, a, target);
            r.Success? ==> RemoveActivity(r.value.schedule, a.id, r.value.day) == s
  {
    var r := AddActivity(s, days, a, target);
    if r.Success? {
      var d := r.value.day;
      assert r.value.schedule == Put(s, d, s.lists[d] + [a]);
      RemoveUndoesAppend(s, a, d);
    }
  }

  /**
   * `handleDrop(e, day)` for the dragged activity `a`. When the id is planned on another
   * day (`origin`, the first key holding it), the drop is rejected on a conflict at the
   * target and otherwise removes it from the origin and adds it to the target. The add
   * runs its duplicate check against the state before the removal, so a target that
   * already holds the id keeps its list while the origin loses the entry. In every
   * other case the drop is `addActivity(a, day)`.
   */
  function Move(s: Schedule, a: Activity, target: Day): (r: Result<Schedule, PlanError>)
    requires s.Valid() && target in s.lists
    ensures r.Success? ==> r.value.Valid() && r.value.keys == s.keys
    ensures var origin := DayOf(s.keys, s.lists, a.id);
            origin.Some? && origin.value != target ==>
              && (r.Failure? <==> !Fits(s.lists[target], a, a.time))
              && (r.Failure? ==> r.error.Conflict? && r.error.day == target)
              && (r.Success? ==>
                    && !HasId(r.value.lists[origin.value], a.id)
                    && HasId(r.value.lists[target], a.id)
                    && r.value.lists[origin.value] == Without(s.lists[origin.value], a.id)
                    && r.value.lists[target] == (if HasId(s.lists[target], a.id) then s.lists[target] else s.lists[target] + [a])
                    && forall d :: d in s.lists && d != origin.value && d != target ==> r.value.lists[d] == s.lists[d])
    ensures var origin := DayOf(s.keys, s.lists, a.id);
            origin.None? || origin.value == target ==>
              && (r.Success? <==> PlaceOn(s, a, target).Success?)
              && (r.Success? ==> r.value == PlaceOn(s, a, target).value.schedule)
  {
    var origin := DayOf(s.keys, s.lists, a.id);
    if origin.Some? && origin.value != target then
      match FirstConflict(s.lists[target], a, a.time)
      case Some(c) => Failure(Conflict(target, c))
      case None =>
        var removed := RemoveActivity(s, a.id, origin.value);
        assert removed.lists[target] == s.lists[target];
        if HasId(s.lists[target], a.id) then Success(removed)
        else
          var t := Put(removed, target, removed.lists[target] + [a]);
          assert t.lists[origin.value] == removed.lists[origin.value];
          assert a in t.lists[target];
          assert forall d :: d in s.lists && d != origin.value && d != target ==> t.lists[d] == removed.lists[d];
          Success(t)
    else
      match PlaceOn(s, a, target)
      case Success(p) => Success(p.schedule)
      case Failure(e) => Failure(e)
  }

  /** Dropping onto a day that already holds the id removes it from its first day without adding it again. */
  lemma MoveOntoDuplicate(s: Schedule, a: Activity, target: Day)
    requires s.Valid() && target in s.lists
    requires var origin := DayOf(s.keys, s.lists, a.id);
             origin.Some? && origin.value != target && HasId(s.lists[target], a.id)
    requires Fits(s.lists[target], a, a.time)
    ensures var origin := DayOf(s.keys, s.lists, a.id).value;
            Move(s, a, target) == Success(RemoveActivity(s, a.id, origin))
  {
  }

  /** Filtering a consistent list keeps it consistent. */
  lemma RemovePreservesNoOverlaps(s: Schedule, id: string, d: Day)
    requires s.Valid() && d in s.lists && NoOverlaps(s)
    ensures NoOverlaps(RemoveActivity(s, id, d))
  {
    var r := RemoveActivity(s, id, d);
    assert forall e :: e in r.lists[d] ==> e in s.lists[d];
  }

  /** A drop never creates an overlap. */
  lemma MovePreservesNoOverlaps(s: Schedule, a: Activity, target: Day)
    requires s.Valid() && target in s.lists && NoOverlaps(s)
    ensures var r := Move(s, a, target);
            r.Success? ==> NoOverlaps(r.value)
  {
    var r := Move(s, a, target);
    var origin := DayOf(s.keys, s.lists, a.id);
    if r.Success? {
      if origin.Some? && origin.value != target {
        var removed := RemoveActivity(s, a.id, origin.value);
        RemovePreservesNoOverlaps(s, a.id, origin.value);
        if !HasId(s.lists[target], a.id) {
          assert removed.lists[target] == s.lists[target];
          AppendFitting(removed.lists[target], a);
          PutConsistent(removed, target, removed.lists[target] + [a]);
          assert r.value == Put(removed, target, removed.lists[target] + [a]);
        } else {
          assert r.value == removed;
        }
      } else {
        AppendFitting(s.lists[target], a);
        PutConsistent(s, target, s.lists[target] + [a]);
      }
    }
  }

  /** `list.map(a => a.id === id ? { ...a, time: t } : a)`. */
  function Retime(list: seq<Activity>, id: string, t: Minute): (r: seq<Activity>)
    ensures |r| == |list|
    ensures forall i :: 0 <= i < |r| ==> r[i].id == list[i].id && r[i].duration == list[i].duration
    ensures forall i :: 0 <= i < |r| && list[i].id == id ==> r[i].time == t
    ensures forall i :: 0 <= i < |r| && list[i].id != id ==> r[i] == list[i]
    ensures forall i :: 0 <= i < |r| ==> r[i] == list[i].(time := r[i].time)
  {
    if list == [] then []
    else [if list[0].id == id then list[0].(time := t) else list[0]] + Retime(list[1..], id, t)
  }

  /** A second time edit of the same id overrides the first. */
  lemma RetimeTwice(list: seq<Activity>, id: string, t1: Minute, t2: Minute)
    ensures Retime(Retime(list, id, t1), id, t2) == Retime(list, id, t2)
  {
    var a, b := Retime(Retime(list, id, t1), id, t2), Retime(list, id, t2);
    assert forall i :: 0 <= i < |a| ==> a[i] == b[i];
  }

  /**
   * `addActivityToBucket(activity, customTime)`: the activity goes last in the bucket,
   * with an id of `activity_<timestamp>` (`freshId`) when it has none and the custom
   * time when one is given.
   */
  function AddToBucket(bucket: seq<Activity>, a: Activity, customTime: Option<Minute>, freshId: string): (r: seq<Activity>)
    ensures |r| == |bucket| + 1 && r[..|bucket|] == bucket
    ensures r[|bucket|].id == (if a.id == "" then freshId else a.id)
    ensures r[|bucket|].time == customTime.GetOr(a.time)
    ensures r[|bucket|] == a.(id := r[|bucket|].id, time := r[|bucket|].time)
  {
    bucket + [a.(id := if a.id == "" then freshId else a.id, time := customTime.GetOr(a.time))]
  }

  /** `removeActivityFromBucket(id)`: the bucket without the entries carrying that id. */
  function RemoveFromBucket(bucket: seq<Activity>, id: string): (r: seq<Activity>)
    ensures !HasId(r, id)
    ensures forall e: Activity :: e.id != id ==> multiset(r)[e] == multiset(bucket)[e]
    ensures SubsequenceOf(r, bucket)
  {
    Without(bucket, id)
  }

  /** Removing an id from the bucket right after adding it restores the bucket, when the id was not there before. */
  lemma RemoveFromBucketUndoesAdd(bucket: seq<Activity>, a: Activity, customTime: Option<Minute>, freshId: string)
    requires a.id != "" && !HasId(bucket, a.id)
    ensures RemoveFromBucket(AddToBucket(bucket, a, customTime, freshId), a.id) == bucket
  {
    var e := a.(time := customTime.GetOr(a.time));
    assert AddToBucket(bucket, a, customTime, freshId) == bucket + [e];
    WithoutAppended(bucket, e);
  }

  /** `updateActivityBucketTime(id, t)`: no conflict check, every entry with that id gets the time. */
  function UpdateBucketTime(bucket: seq<Activity>, id: string, t: Minute): (r: seq<Activity>)
    ensures |r| == |bucket|
    ensures forall i :: 0 <= i < |r| ==> r[i].id == bucket[i].id
    ensures forall i :: 0 <= i < |r| ==> if bucket[i].id == id then r[i] == bucket[i].(time := t) else r[i] == bucket[i]
  {
    Retime(bucket, id, t)
  }

  /**
   * `updateActivityTime(id, day, t)`: the day's first entry with that id is looked up
   * (an absent day or id is NotFound) and checked at the new time against the other
   * entries of that day; on success every entry with that id on that day gets the time.
   */
  function UpdateTimeOnDay(s: Schedule, id: string, d: Day, t: Minute): (r: Result<Schedule, PlanError>)
    requires s.Valid()
    ensures r == Failure(NotFound) <==> d !in s.lists || !HasId(s.lists[d], id)
    ensures r.Failure? && r.error.Conflict? ==>
      d in s.lists && r.error.day == d && r.error.other in s.lists[d] && r.error.other.id != id
    ensures r.Success? ==>
      && d in s.lists && r.value.Valid() && r.value.keys == s.keys
      && (forall d' :: d' in s.lists && d' != d ==> r.value.lists[d'] == s.lists[d'])
      && |r.value.lists[d]| == |s.lists[d]|
      && (forall i :: 0 <= i < |s.lists[d]| && s.lists[d][i].id == id ==> r.value.lists[d][i] == s.lists[d][i].(time := t))
      && (forall i :: 0 <= i < |s.lists[d]| && s.lists[d][i].id != id ==> r.value.lists[d][i] == s.lists[d][i])
    ensures d in s.lists ==>
      match FindById(s.lists[d], id)
      case None => r == Failure(NotFound)
      case Some(a) => r.Success? <==> Fits(s.lists[d], a, t)
  {
    if d !in s.lists then Failure(NotFound)
    else match FindById(s.lists[d], id)
      case None => Failure(NotFound)
      case Some(a) =>
        match FirstConflict(s.lists[d], a, t)
        case Some(c) => Failure(Conflict(d, c))
        case None => Success(Put(s, d, Retime(s.lists[d], id, t)))
  }

  /** Ids never repeat within one list. */
  predicate UniqueIds(list: seq<Activity>) {
    forall i, j :: 0 <= i < j < |list| ==> list[i].id != list[j].id
  }

  /** A time edit that passed its conflict check keeps the day free of overlaps when the day's ids are unique. */
  lemma UpdateTimePreservesNoOverlaps(s: Schedule, id: string, d: Day, t: Minute)
    requires s.Valid() && NoOverlaps(s) && d in s.lists && UniqueIds(s.lists[d])
    ensures var r := UpdateTimeOnDay(s, id, d, t);
            r.Success? ==> NoOverlaps(r.value)
  {
    var r := UpdateTimeOnDay(s, id, d, t);
    if r.Success? {
      var a := FindById(s.lists[d], id).value;
      RetimeConsistent(s.lists[d], id, a, t);
      PutConsistent(s, d, Retime(s.lists[d], id, t));
    }
  }

  /** Moving the only entry with id `id` to a time where it fits the list keeps the list consistent. */
  lemma RetimeConsistent(list: seq<Activity>, id: string, a: Activity, t: Minute)
    requires Consistent(list) && UniqueIds(list)
    requires a in list && a.id == id && Fits(list, a, t)
    ensures Consistent(Retime(list, id, t))
  {
    var k :| 0 <= k < |list| && list[k] == a;
    var out := Retime(list, id, t);
    forall x, y | x in out && y in out
      ensures !ConflictsWith(x, x.time, y)
    {
      var i :| 0 <= i < |out| && out[i] == x;
      var j :| 0 <= j < |out| && out[j] == y;
      if list[i].id == id && list[j].id != id {
        assert i == k;
        assert !ConflictsWith(a, t, list[j]);
      } else if list[j].id == id && list[i].id != id {
        assert j == k;
        assert !ConflictsWith(a, t, list[i]);
        ConflictSymmetric(y, x);
      } else if list[i].id != id && list[j].id != id {
        assert list[i] in list && list[j] in list;
      }
    }
  }

  /**
   * `updateActivityTime(id, t)`, the two-argument form: an id found in the bucket only
   * has its bucket time changed; otherwise the first day (in key order) holding the id
   * is edited as above, and an id found nowhere is NotFound.
   */
  function UpdateTime(p: Plan, id: string, t: Minute): (r: Result<Plan, PlanError>)
    requires p.schedule.Valid()
    ensures HasId(p.bucket, id) ==> r == Success(p.(bucket := UpdateBucketTime(p.bucket, id, t)))
    ensures !HasId(p.bucket, id) && !IdScheduled(p.schedule, id) ==> r == Failure(NotFound)
    ensures !HasId(p.bucket, id) && IdScheduled(p.schedule, id) ==>
      var d := DayOf(p.schedule.keys, p.schedule.lists, id).value;
      && (r.Success? <==> UpdateTimeOnDay(p.schedule, id, d, t).Success?)
      && (r.Success? ==> r.value == Plan(UpdateTimeOnDay(p.schedule, id, d, t).value, p.bucket))
  {
    if HasId(p.bucket, id) then Success(p.(bucket := UpdateBucketTime(p.bucket, id, t)))
    else match DayOf(p.schedule.keys, p.schedule.lists, id)
      case None => Failure(NotFound)
      case Some(d) =>
        match UpdateTimeOnDay(p.schedule, id, d, t)
        case Success(s) => Success(Plan(s, p.bucket))
        case Failure(e) => Failure(e)
  }
}
