/**
 * The weather effect of the planner hook. For every day that holds activities:
 *  - on a weather code of 51 or more (rain, snow, storm) it offers to swap the day's
 *    first "Outdoor" activity for the first catalog activity that is "Indoor", not
 *    already on the day, and within 30 minutes of the duration of one of the day's
 *    "Outdoor" activities;
 *  - on a code of 0 or 1 (clear sky) it suggests going outside when more than half of
 *    the day's activities are "Indoor".
 * Accepting the swap removes the outdoor activity and appends the alternative, without
 * a conflict check.
 */
module WeatherSwap {
  import opened Wrappers
  import opened Seqs
  import opened Activities
  import opened Schedules
  import opened Catalog
  import opened Planner

  /** A notification for one day. */
  datatype Alert =
    | SwapOffer(day: Day, outdoor: Activity, indoor: Activity)
    | SunnyReminder(day: Day)
  {
    function Day(): Day {
      match this
      case SwapOffer(d, _, _) => d
      case SunnyReminder(d) => d
    }
  }

  const RainCode: int := 51
  const DurationTolerance: nat := 30

  predicate Near(x: nat, y: nat) {
    (if x >= y then x - y else y - x) <= DurationTolerance
  }

  /** A catalog activity the day could take instead of one of its outdoor activities. */
  predicate Alternative(list: seq<Activity>, outdoor: seq<Activity>, a: Activity) {
    a.category == "Indoor" && !HasId(list, a.id) && exists o :: o in outdoor && Near(o.duration, a.duration)
  }

  /** The first element of `s` satisfying `p`. */
  function First<T(==)>(s: seq<T>, p: T -> bool): (r: Option<T>)
    ensures r.None? <==> forall x :: x in s ==> !p(x)
    ensures r.Some? ==> exists k :: 0 <= k < |s| && s[k] == r.value && p(s[k]) && forall j :: 0 <= j < k ==> !p(s[j])
  {
    if s == [] then None
    else if p(s[0]) then Some(s[0])
    else
      var r := First(s[1..], p);
      assert forall x :: x in s ==> x == s[0] || x in s[1..];
      if r.Some? then
        var k :| 0 <= k < |s[1..]| && s[1..][k] == r.value && p(s[1..][k]) && forall j :: 0 <= j < k ==> !p(s[1..][j]);
        assert s[k + 1] == r.value;
        r
      else r
  }

  /** The swap offered for a rainy day's `list`, if any: the first outdoor entry and the first alternative. */
  function Proposal(list: seq<Activity>, catalog: seq<Activity>): (r: Option<(Activity, Activity)>)
    ensures r.None? <==>
      (forall a :: a in list ==> a.category != "Outdoor")
      || (forall a :: a in catalog ==> !Alternative(list, Filter(list, (o: Activity) => o.category == "Outdoor"), a))
    ensures r.Some? ==>
      var (out, alt) := r.value;
      && out in list && out.category == "Outdoor"
      && (exists k :: 0 <= k < |list| && list[k] == out && forall j :: 0 <= j < k ==> list[j].category != "Outdoor")
      && alt in catalog && alt.category == "Indoor" && !HasId(list, alt.id)
      && (exists o :: o in list && o.category == "Outdoor" && Near(o.duration, alt.duration))
    ensures r.Some? ==>
      exists k :: 0 <= k < |catalog| && catalog[k] == r.value.1
        && forall j :: 0 <= j < k ==> !Alternative(list, Filter(list, (o: Activity) => o.category == "Outdoor"), catalog[j])
  {
    var isOutdoor := (o: Activity) => o.category == "Outdoor";
    var outdoor := Filter(list, isOutdoor);
    var isAlt := (a: Activity) => Alternative(list, outdoor, a);
    if outdoor == [] then
      assert forall a :: a in list ==> !isOutdoor(a);
      None
    else
      match First(catalog, isAlt)
      case None => None
      case Some(alt) =>
        assert alt in catalog && isAlt(alt);
        var first := First(list, isOutdoor);
        assert outdoor[0] in list && isOutdoor(outdoor[0]);
        assert first.Some?;
        assert forall o :: o in outdoor ==> o in list && o.category == "Outdoor";
        Some((first.value, alt))
  }

  /** More than half of a non-empty day is "Indoor": `indoor.length > total / 2 && total > 0`. */
  predicate MostlyIndoor(list: seq<Activity>) {
    |list| > 0 && 2 * |Filter(list, (a: Activity) => a.category == "Indoor")| > |list|
  }

  /** The alert for day `d` holding `list`, given the day's weather code if one is known. */
  function DayAlert(d: Day, list: seq<Activity>, catalog: seq<Activity>, code: Option<int>): (r: Option<Alert>)
    ensures r.Some? ==> r.value.Day() == d && code.Some?
    ensures r.Some? && r.value.SwapOffer? ==> code.value >= RainCode && Proposal(list, catalog) == Some((r.value.outdoor, r.value.indoor))
    ensures r.Some? && r.value.SunnyReminder? ==> 0 <= code.value <= 1 && MostlyIndoor(list)
    ensures code.Some? && code.value >= RainCode && Proposal(list, catalog).Some? ==> r.Some? && r.value.SwapOffer?
    ensures code.Some? && 0 <= code.value <= 1 && MostlyIndoor(list) ==> r.Some? && r.value.SunnyReminder?
  {
    match code
    case None => None
    case Some(c) =>
      if c >= RainCode then
        match Proposal(list, catalog)
        case Some((out, alt)) => Some(SwapOffer(d, out, alt))
        case None => None
      else if 0 <= c <= 1 && MostlyIndoor(list) then Some(SunnyReminder(d))
      else None
  }

  function CodeOf(weather: map<Day, int>, d: Day): Option<int> {
    if d in weather then Some(weather[d]) else None
  }

  /** The alerts of the effect, in key order, for the days that hold activities. */
  function Alerts(keys: seq<Day>, lists: map<Day, seq<Activity>>, weather: map<Day, int>, catalog: seq<Activity>): (r: seq<Alert>)
    requires forall d :: d in keys ==> d in lists
    ensures forall x :: x in r ==>
      x.Day() in keys && lists[x.Day()] != [] && DayAlert(x.Day(), lists[x.Day()], catalog, CodeOf(weather, x.Day())) == Some(x)
    ensures forall d :: d in keys && lists[d] != [] && DayAlert(d, lists[d], catalog, CodeOf(weather, d)).Some? ==>
      DayAlert(d, lists[d], catalog, CodeOf(weather, d)).value in r
  {
    if keys == [] then []
    else
      var d := keys[0];
      var here := if lists[d] == [] then None else DayAlert(d, lists[d], catalog, CodeOf(weather, d));
      var rest := Alerts(keys[1..], lists, weather, catalog);
      assert forall e :: e in keys ==> e == d || e in keys[1..];
      match here
      case Some(x) => [x] + rest
      case None => rest
  }

  /** "Smart Swap": the outdoor activity's id leaves the day and the alternative is appended. */
  function Confirm(s: Schedule, d: Day, out: Activity, alt: Activity): (r: Schedule)
    requires s.Valid() && d in s.lists
    ensures r.Valid() && r.keys == s.keys
    ensures forall e :: e in s.lists && e != d ==> r.lists[e] == s.lists[e]
    ensures r.lists[d] == Without(s.lists[d], out.id) + [alt]
  {
    Put(s, d, Without(s.lists[d], out.id) + [alt])
  }

  /** After the swap the day no longer holds the outdoor activity's id, and does hold the alternative. */
  lemma ConfirmReplaces(s: Schedule, d: Day, out: Activity, alt: Activity)
    requires s.Valid() && d in s.lists
    requires alt.id != out.id
    ensures !HasId(Confirm(s, d, out, alt).lists[d], out.id)
    ensures alt in Confirm(s, d, out, alt).lists[d]
    ensures forall e: Activity :: e.id != out.id && e != alt ==>
      multiset(Confirm(s, d, out, alt).lists[d])[e] == multiset(s.lists[d])[e]
  {
    var list := Confirm(s, d, out, alt).lists[d];
    var kept := Without(s.lists[d], out.id);
    assert list == kept + [alt];
    forall e | e in list ensures e.id != out.id {
      assert e in kept || e == alt;
    }
  }

  /**
   * The swap is not checked against the day's other activities: on a one-day schedule
   * `[out, keep]` without overlaps, an alternative that clashes with `keep` creates one.
   */
  lemma ConfirmSkipsConflictCheck(d: Day, out: Activity, keep: Activity, alt: Activity)
    requires keep.id != out.id
    requires !ConflictsWith(out, out.time, keep) && !ConflictsWith(keep, keep.time, out)
    requires ConflictsWith(alt, alt.time, keep)
    ensures var s := Schedule([d], map[d := [out, keep]]);
      NoOverlaps(s) && !NoOverlaps(Confirm(s, d, out, alt))
  {
    var s := Schedule([d], map[d := [out, keep]]);
    ConsistentPair(out, keep);
    assert NoOverlaps(s);
    var r := Confirm(s, d, out, alt);
    assert Without([out, keep], out.id) == [keep] by {
      assert [out, keep][1..] == [keep];
    }
    assert r.lists[d] == [keep, alt];
    ClashBreaksNoOverlaps(r, d, alt, keep);
  }

  /** A rainy-day swap into a museum visit at 11:40 overlaps the lunch kept at 12:00. */
  lemma ConfirmCanCreateOverlap()
    ensures var hike := Activity("hike", "", 60, "", 600, "", "Outdoor", "");
      var lunch := Activity("lunch", "", 60, "", 720, "", "Indoor", "");
      var museum := Activity("museum", "", 60, "", 700, "", "Indoor", "");
      var s := Schedule([Saturday], map[Saturday := [hike, lunch]]);
      NoOverlaps(s) && !NoOverlaps(Confirm(s, Saturday, hike, museum))
  {
    var hike := Activity("hike", "", 60, "", 600, "", "Outdoor", "");
    var lunch := Activity("lunch", "", 60, "", 720, "", "Indoor", "");
    var museum := Activity("museum", "", 60, "", 700, "", "Indoor", "");
    ConfirmSkipsConflictCheck(Saturday, hike, lunch, museum);
  }

  /** A day without "Indoor" or "Outdoor" entries never raises an alert. */
  lemma NoRawCategoryNoAlert(d: Day, list: seq<Activity>, catalog: seq<Activity>, code: Option<int>)
    requires forall a :: a in list ==> a.category != "Indoor" && a.category != "Outdoor"
    ensures DayAlert(d, list, catalog, code).None?
  {
    assert Filter(list, (a: Activity) => a.category == "Indoor") == [];
  }

  /** Days that raise no alert on their own raise none together. */
  lemma {:induction false} NoDayAlertNoAlerts(keys: seq<Day>, lists: map<Day, seq<Activity>>, weather: map<Day, int>, catalog: seq<Activity>)
    requires forall d :: d in keys ==> d in lists
    requires forall d, a :: d in keys && a in lists[d] ==> a.category != "Indoor" && a.category != "Outdoor"
    ensures Alerts(keys, lists, weather, catalog) == []
  {
    if keys != [] {
      NoRawCategoryNoAlert(keys[0], lists[keys[0]], catalog, CodeOf(weather, keys[0]));
      NoDayAlertNoAlerts(keys[1..], lists, weather, catalog);
    }
  }

  /**
   * Activities loaded from the catalog carry their group's name as category, never
   * "Indoor" or "Outdoor"; so when every scheduled activity comes from the catalog, the
   * effect raises no alert at all.
   */
  lemma CatalogSchedulesRaiseNoAlert(s: Schedule, weather: map<Day, int>, catalog: seq<Activity>)
    requires s.Valid()
    requires forall d, a :: d in s.lists && a in s.lists[d] ==> a in AllActivities(Groups)
    ensures Alerts(s.keys, s.lists, weather, catalog) == []
  {
    forall d, a | d in s.lists && a in s.lists[d] ensures a.category != "Indoor" && a.category != "Outdoor" {
      LoadedCategories(a);
    }
    NoDayAlertNoAlerts(s.keys, s.lists, weather, catalog);
  }
}
