/**
 * The schedule store: the hook's `scheduledActivities` object, a JavaScript object
 * whose keys keep their insertion order and whose values are the per-day lists in
 * insertion order.
 */
module Schedules {
  import opened Wrappers
  import opened Seqs
  import opened Activities

  /** Keys in insertion order, and the list stored under each key. */
  datatype Schedule = Schedule(keys: seq<Day>, lists: map<Day, seq<Activity>>) {

    /** The keys are those of the map, each listed once. */
    predicate Valid() {
      Distinct(keys) && forall d :: d in lists <==> d in keys
    }
  }

  /** `{ ...s, [d]: xs }`: an existing key keeps its place, a new key goes last. */
  function Put(s: Schedule, d: Day, xs: seq<Activity>): (r: Schedule)
    requires s.Valid()
    ensures r.Valid()
    ensures r.lists == s.lists[d := xs]
    ensures d in s.lists ==> r.keys == s.keys
    ensures d !in s.lists ==> r.keys == s.keys + [d]
  {
    if d in s.lists then Schedule(s.keys, s.lists[d := xs])
    else Schedule(s.keys + [d], s.lists[d := xs])
  }

  /** A schedule whose keys are `days`, each holding an empty list. */
  function Empty(days: seq<Day>): (r: Schedule)
    requires Distinct(days)
    ensures r.Valid() && r.keys == days
    ensures forall d :: d in r.lists ==> r.lists[d] == []
  {
    Schedule(days, map d | d in days :: [])
  }

  /** `Object.values(s).flat()` over the given keys, in key order. */
  function Flat(keys: seq<Day>, lists: map<Day, seq<Activity>>): seq<Activity>
    requires forall d :: d in keys ==> d in lists
  {
    if keys == [] then [] else lists[keys[0]] + Flat(keys[1..], lists)
  }

  /** Every placed activity, day by day in key order. */
  function Placed(s: Schedule): seq<Activity>
    requires s.Valid()
  {
    Flat(s.keys, s.lists)
  }

  /** Some day of `s` holds an activity with this id. */
  predicate IdScheduled(s: Schedule, id: string) {
    exists d :: d in s.lists && HasId(s.lists[d], id)
  }

  lemma {:induction false} FlatHasId(keys: seq<Day>, lists: map<Day, seq<Activity>>, id: string)
    requires forall d :: d in keys ==> d in lists
    ensures HasId(Flat(keys, lists), id) <==> exists d :: d in keys && HasId(lists[d], id)
  {
    if keys != [] {
      FlatHasId(keys[1..], lists, id);
      var f := Flat(keys, lists);
      assert f == lists[keys[0]] + Flat(keys[1..], lists);
      assert forall e :: e in f <==> e in lists[keys[0]] || e in Flat(keys[1..], lists);
    }
  }

  /** Searching the flattened schedule (as the hook does) is searching every day. */
  lemma PlacedHasId(s: Schedule, id: string)
    requires s.Valid()
    ensures HasId(Placed(s), id) <==> IdScheduled(s, id)
  {
    FlatHasId(s.keys, s.lists, id);
  }

  /** The first key, in key order, whose list holds `id`. */
  function DayOf(keys: seq<Day>, lists: map<Day, seq<Activity>>, id: string): (r: Option<Day>)
    requires forall d :: d in keys ==> d in lists
    ensures r.None? <==> forall d :: d in keys ==> !HasId(lists[d], id)
    ensures r.Some? ==> r.value in keys && HasId(lists[r.value], id)
    ensures r.Some? ==>
      exists i :: 0 <= i < |keys| && keys[i] == r.value && forall j :: 0 <= j < i ==> !HasId(lists[keys[j]], id)
  {
    if keys == [] then None
    else if HasId(lists[keys[0]], id) then Some(keys[0])
    else
      var r := DayOf(keys[1..], lists, id);
      assert forall d :: d in keys ==> d == keys[0] || d in keys[1..];
      if r.Some? then
        var i :| 0 <= i < |keys[1..]| && keys[1..][i] == r.value
          && forall j :: 0 <= j < i ==> !HasId(lists[keys[1..][j]], id);
        assert keys[i + 1] == r.value;
        r
      else r
  }

  // How often an activity occurs on a set of days. Summing over the seven days in a
  // fixed order makes the count independent of the schedule's key order.

  function Part(lists: map<Day, seq<Activity>>, days: set<Day>, d: Day, x: Activity): nat {
    if d in days && d in lists then multiset(lists[d])[x] else 0
  }

  function Occurrences(lists: map<Day, seq<Activity>>, days: set<Day>, x: Activity): nat {
    Part(lists, days, Monday, x) + Part(lists, days, Tuesday, x) + Part(lists, days, Wednesday, x)
    + Part(lists, days, Thursday, x) + Part(lists, days, Friday, x) + Part(lists, days, Saturday, x)
    + Part(lists, days, Sunday, x)
  }

  /** How often `x` is placed anywhere in the schedule. */
  function Count(s: Schedule, x: Activity): nat {
    Occurrences(s.lists, s.lists.Keys, x)
  }

  lemma OccurrencesAdd(lists: map<Day, seq<Activity>>, days: set<Day>, d: Day, x: Activity)
    requires d !in days && d in lists
    ensures Occurrences(lists, days + {d}, x) == Occurrences(lists, days, x) + multiset(lists[d])[x]
  {
  }

  lemma PartUnion(lists: map<Day, seq<Activity>>, a: set<Day>, b: set<Day>, d: Day, x: Activity)
    requires a !! b
    ensures Part(lists, a + b, d, x) == Part(lists, a, d, x) + Part(lists, b, d, x)
  {
    assert !(d in a && d in b);
  }

  lemma OccurrencesUnion(lists: map<Day, seq<Activity>>, a: set<Day>, b: set<Day>, x: Activity)
    requires a !! b
    ensures Occurrences(lists, a + b, x) == Occurrences(lists, a, x) + Occurrences(lists, b, x)
  {
    PartUnion(lists, a, b, Monday, x);
    PartUnion(lists, a, b, Tuesday, x);
    PartUnion(lists, a, b, Wednesday, x);
    PartUnion(lists, a, b, Thursday, x);
    PartUnion(lists, a, b, Friday, x);
    PartUnion(lists, a, b, Saturday, x);
    PartUnion(lists, a, b, Sunday, x);
  }

  lemma OccurrencesUpdate(lists: map<Day, seq<Activity>>, days: set<Day>, d: Day, xs: seq<Activity>, x: Activity)
    requires d in days && d in lists
    ensures Occurrences(lists[d := xs], days, x) + multiset(lists[d])[x] == Occurrences(lists, days, x) + multiset(xs)[x]
  {
  }

  lemma OccurrencesSame(l1: map<Day, seq<Activity>>, l2: map<Day, seq<Activity>>, days: set<Day>, x: Activity)
    requires forall d :: d in days ==> (d in l1 <==> d in l2)
    requires forall d :: d in days && d in l1 ==> l1[d] == l2[d]
    ensures Occurrences(l1, days, x) == Occurrences(l2, days, x)
  {
  }

  /** Flattening distinct keys collects exactly the activities of those days. */
  lemma {:induction false} FlatContents(keys: seq<Day>, lists: map<Day, seq<Activity>>)
    requires Distinct(keys)
    requires forall d :: d in keys ==> d in lists
    ensures forall x :: multiset(Flat(keys, lists))[x] == Occurrences(lists, (set d | d in keys), x)
  {
    if keys == [] {
      assert (set d | d in keys) == {};
    } else {
      var rest := keys[1..];
      assert Distinct(rest) by {
        forall i, j | 0 <= i < j < |rest| ensures rest[i] != rest[j] {
          assert rest[i] == keys[i + 1] && rest[j] == keys[j + 1];
        }
      }
      FlatContents(rest, lists);
      assert keys[0] !in rest by {
        forall i | 0 <= i < |rest| ensures rest[i] != keys[0] {
          assert rest[i] == keys[i + 1];
        }
      }
      assert (set d | d in keys) == (set d | d in rest) + {keys[0]};
      assert Flat(keys, lists) == lists[keys[0]] + Flat(rest, lists);
      forall x
        ensures multiset(Flat(keys, lists))[x] == Occurrences(lists, (set d | d in keys), x)
      {
        OccurrencesAdd(lists, (set d | d in rest), keys[0], x);
      }
    }
  }

  /** The flattened schedule holds exactly the schedule's contents. */
  lemma PlacedContents(s: Schedule)
    requires s.Valid()
    ensures forall x :: multiset(Placed(s))[x] == Count(s, x)
  {
    FlatContents(s.keys, s.lists);
    assert (set d | d in s.keys) == s.lists.Keys;
  }
}
