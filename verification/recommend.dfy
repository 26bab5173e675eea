/**
 * `generateSmartRecommendations`: the catalog activities not yet scheduled, scored
 * against the scheduled ones and ordered best first, at most five of them.
 *
 * The score of a candidate adds
 *  - 3 for every scheduled activity with the same vibe,
 *  - 2 for every scheduled activity with the same category,
 *  - 2 for every scheduled activity with the same energy level, when the candidate has one,
 *  - 2 when its duration is within 30 minutes of the scheduled average (120 when nothing
 *    is scheduled), else 1 within 60 minutes,
 *  - 3 for every day whose weather code favours its category (rain or worse for
 *    "Indoor", clear sky for "Outdoor").
 */
module Recommend {
  import opened Seqs
  import opened Sorting
  import opened Activities
  import opened Schedules
  import opened Catalog

  /** A recommended activity with its `recommendationScore`. */
  datatype Scored = Scored(activity: Activity, score: int)

  const MaxRecommendations: nat := 5
  const DefaultDuration: nat := 120

  /** The source's histogram entry: how many of `acts` share the value. */
  function VibeCount(acts: seq<Activity>, vibe: string): nat {
    |Filter(acts, (b: Activity) => b.vibe == vibe)|
  }

  function CategoryCount(acts: seq<Activity>, category: string): nat {
    |Filter(acts, (b: Activity) => b.category == category)|
  }

  /** Only non-empty energy levels are counted, and only a non-empty one is looked up. */
  function EnergyCount(acts: seq<Activity>, energy: string): nat {
    if energy == "" then 0 else |Filter(acts, (b: Activity) => b.energyLevel == energy)|
  }

  function SumDurations(acts: seq<Activity>): nat {
    if acts == [] then 0 else acts[0].duration + SumDurations(acts[1..])
  }

  function Abs(x: int): nat {
    if x < 0 then -x else x
  }

  /**
   * The duration bonus against the average `total / n` of `n` scheduled durations,
   * compared without division: `|d - total/n| <= w` is `|d*n - total| <= w*n`.
   */
  function DurationBonus(d: nat, total: nat, n: nat): (r: nat)
    ensures r <= 2
  {
    if n == 0 then
      (if Abs(d - DefaultDuration) <= 30 then 2 else if Abs(d - DefaultDuration) <= 60 then 1 else 0)
    else
      (if Abs(d * n - total) <= 30 * n then 2 else if Abs(d * n - total) <= 60 * n then 1 else 0)
  }

  /** The bonus read off the real average duration, as the source computes it. */
  function AverageBonus(d: nat, avg: real): nat {
    var diff := if d as real >= avg then d as real - avg else avg - d as real;
    if diff <= 30.0 then 2 else if diff <= 60.0 then 1 else 0
  }

  /** A weather code is truthy (present and non-zero) and favours the category. */
  predicate Favours(weather: map<Day, int>, d: Day, category: string) {
    d in weather && weather[d] != 0
    && ((weather[d] >= 51 && category == "Indoor") || (weather[d] <= 1 && category == "Outdoor"))
  }

  /** The weather loop over the schedule's keys. */
  function WeatherBonus(days: seq<Day>, weather: map<Day, int>, category: string): (r: nat)
    ensures r == 3 * |Filter(days, (d: Day) => Favours(weather, d, category))|
    ensures category != "Indoor" && category != "Outdoor" ==> r == 0
  {
    if days == [] then 0
    else
      assert days == [days[0]] + days[1..];
      (if Favours(weather, days[0], category) then 3 else 0) + WeatherBonus(days[1..], weather, category)
  }

  /** The recommendation score of `a` against the scheduled activities `current`. */
  function Score(current: seq<Activity>, days: seq<Day>, weather: map<Day, int>, a: Activity): (r: nat)
    ensures r <= 7 * |current| + 2 + 3 * |days|
  {
    3 * VibeCount(current, a.vibe) + 2 * CategoryCount(current, a.category)
    + 2 * EnergyCount(current, a.energyLevel)
    + DurationBonus(a.duration, SumDurations(current), |current|)
    + WeatherBonus(days, weather, a.category)
  }

  /**
   * A candidate that shares no vibe, category or energy level with anything scheduled
   * is scored only on its duration and the weather: at most 2 plus 3 per day.
   */
  lemma ScoreOfUnrelated(current: seq<Activity>, days: seq<Day>, weather: map<Day, int>, a: Activity)
    requires forall b :: b in current ==> b.vibe != a.vibe && b.category != a.category && b.energyLevel != a.energyLevel
    ensures Score(current, days, weather, a)
      == DurationBonus(a.duration, SumDurations(current), |current|) + WeatherBonus(days, weather, a.category)
    ensures Score(current, days, weather, a) <= 2 + 3 * |days|
  {
    assert Filter(current, (b: Activity) => b.vibe == a.vibe) == [];
    assert Filter(current, (b: Activity) => b.category == a.category) == [];
    assert Filter(current, (b: Activity) => b.energyLevel == a.energyLevel) == [];
  }

  /** Every activity paired with its score. */
  function ScoreAll(acts: seq<Activity>, score: Activity -> int): (r: seq<Scored>)
    ensures |r| == |acts|
    ensures forall i :: 0 <= i < |r| ==> r[i] == Scored(acts[i], score(acts[i]))
  {
    seq(|acts|, i requires 0 <= i < |acts| => Scored(acts[i], score(acts[i])))
  }

  /** Sorting by the negated score puts the highest score first. */
  function Rank(sc: Scored): int {
    -sc.score
  }

  /**
   * The recommendations for `catalog` (the loaded activities) and a schedule: the five
   * best-scoring unscheduled activities with their scores, highest first; a candidate
   * left out scores no more than the fifth.
   */
  function Recommend(catalog: seq<Activity>, s: Schedule, weather: map<Day, int>): (r: seq<Scored>)
    requires s.Valid()
    ensures |r| == if |Candidates(catalog, s)| < MaxRecommendations then |Candidates(catalog, s)| else MaxRecommendations
    ensures forall x :: multiset(r)[x] <= multiset(catalog)[x.activity]
    ensures forall i :: 0 <= i < |r| ==>
      && r[i].activity in catalog
      && !IdScheduled(s, r[i].activity.id)
      && r[i].score == Score(Placed(s), s.keys, weather, r[i].activity)
    ensures forall i, j :: 0 <= i < j < |r| ==> r[i].score >= r[j].score
    ensures forall a :: a in catalog && !IdScheduled(s, a.id) ==>
      Scored(a, Score(Placed(s), s.keys, weather, a)) in r
      || (|r| == MaxRecommendations && Score(Placed(s), s.keys, weather, a) <= r[MaxRecommendations - 1].score)
  {
    var score := (a: Activity) => Score(Placed(s), s.keys, weather, a);
    var scored := ScoreAll(Candidates(catalog, s), score);
    CandidatesScored(catalog, s, score);
    var r := Top(scored);
    RecommendCounts(catalog, s, Candidates(catalog, s), scored, r);
    forall i | 0 <= i < |r|
      ensures r[i].activity in catalog && !IdScheduled(s, r[i].activity.id)
      ensures r[i].score == Score(Placed(s), s.keys, weather, r[i].activity)
    {
      assert r[i] in scored;
    }
    forall a | a in catalog && !IdScheduled(s, a.id)
      ensures Scored(a, Score(Placed(s), s.keys, weather, a)) in r
        || (|r| == MaxRecommendations && Score(Placed(s), s.keys, weather, a) <= r[MaxRecommendations - 1].score)
    {
      assert Scored(a, score(a)) in scored;
    }
    r
  }

  /** The recommendations hold each activity no more often than the catalog does. */
  lemma RecommendCounts(catalog: seq<Activity>, s: Schedule, cands: seq<Activity>, scored: seq<Scored>, r: seq<Scored>)
    requires s.Valid() && cands == Candidates(catalog, s)
    requires |scored| == |cands|
    requires forall i :: 0 <= i < |scored| ==> scored[i].activity == cands[i]
    requires multiset(r) <= multiset(scored)
    ensures forall x :: multiset(r)[x] <= multiset(catalog)[x.activity]
  {
    forall x ensures multiset(r)[x] <= multiset(catalog)[x.activity] {
      ScoredCount(cands, scored, x);
      CandidatesCount(catalog, s, x.activity);
    }
  }

  /** The catalog activities whose id is not on any day, in catalog order. */
  function Candidates(catalog: seq<Activity>, s: Schedule): seq<Activity>
    requires s.Valid()
  {
    var current := Placed(s);
    Filter(catalog, (a: Activity) => !HasId(current, a.id))
  }

  /** A list pairing each activity of `acts` with a score holds each pair no more often than `acts` holds its activity. */
  lemma {:induction false} ScoredCount(acts: seq<Activity>, scored: seq<Scored>, x: Scored)
    requires |scored| == |acts|
    requires forall i :: 0 <= i < |scored| ==> scored[i].activity == acts[i]
    ensures multiset(scored)[x] <= multiset(acts)[x.activity]
  {
    if acts != [] {
      assert acts == [acts[0]] + acts[1..];
      assert scored == [scored[0]] + scored[1..];
      ScoredCount(acts[1..], scored[1..], x);
    }
  }

  /** Unscheduled catalog activities occur among the candidates no more often than in the catalog. */
  lemma CandidatesCount(catalog: seq<Activity>, s: Schedule, a: Activity)
    requires s.Valid()
    ensures multiset(Candidates(catalog, s))[a] <= multiset(catalog)[a]
  {
  }

  /** The scored candidates are exactly the unscheduled catalog activities, each with its score. */
  lemma CandidatesScored(catalog: seq<Activity>, s: Schedule, score: Activity -> int)
    requires s.Valid()
    ensures var scored := ScoreAll(Candidates(catalog, s), score);
      && (forall x :: x in scored ==> x.activity in catalog && !IdScheduled(s, x.activity.id) && x.score == score(x.activity))
      && (forall a :: a in catalog && !IdScheduled(s, a.id) ==> Scored(a, score(a)) in scored)
  {
    var current := Placed(s);
    var candidates := Candidates(catalog, s);
    var scored := ScoreAll(candidates, score);
    forall id ensures HasId(current, id) <==> IdScheduled(s, id) {
      PlacedHasId(s, id);
    }
    forall x | x in scored
      ensures x.activity in catalog && !IdScheduled(s, x.activity.id) && x.score == score(x.activity)
    {
      var k :| 0 <= k < |scored| && scored[k] == x;
      assert x.activity == candidates[k];
    }
    forall a | a in catalog && !IdScheduled(s, a.id)
      ensures Scored(a, score(a)) in scored
    {
      var c :| 0 <= c < |candidates| && candidates[c] == a;
      assert scored[c] == Scored(a, score(a));
    }
  }

  /** `sort` by score, highest first, then `slice(0, 5)`. */
  function Top(scored: seq<Scored>): (r: seq<Scored>)
    ensures |r| == if |scored| < MaxRecommendations then |scored| else MaxRecommendations
    ensures multiset(r) <= multiset(scored)
    ensures forall x :: x in r ==> x in scored
    ensures forall i, j :: 0 <= i < j < |r| ==> r[i].score >= r[j].score
    ensures forall x :: x in scored ==>
      x in r || (|r| == MaxRecommendations && x.score <= r[MaxRecommendations - 1].score)
  {
    var sorted := SortBy(scored, Rank);
    var r := Take(sorted, MaxRecommendations);
    TakeHighest(scored, sorted, r);
    r
  }

  /** The first five of a best-first permutation of `scored` are the five best of it. */
  lemma TakeHighest(scored: seq<Scored>, sorted: seq<Scored>, r: seq<Scored>)
    requires SortedBy(sorted, Rank) && multiset(sorted) == multiset(scored)
    requires r == Take(sorted, MaxRecommendations)
    ensures forall x :: x in r ==> x in scored
    ensures forall i, j :: 0 <= i < j < |r| ==> r[i].score >= r[j].score
    ensures forall x :: x in scored ==>
      x in r || (|r| == MaxRecommendations && x.score <= r[MaxRecommendations - 1].score)
  {
    assert forall x :: x in sorted <==> x in scored by {
      forall x ensures x in sorted <==> x in scored {
        assert x in sorted <==> multiset(sorted)[x] > 0;
        assert x in scored <==> multiset(scored)[x] > 0;
      }
    }
    forall i, j | 0 <= i < j < |r| ensures r[i].score >= r[j].score {
      assert r[i] == sorted[i] && r[j] == sorted[j];
      assert Rank(sorted[i]) <= Rank(sorted[j]);
    }
    forall x | x in scored
      ensures x in r || (|r| == MaxRecommendations && x.score <= r[MaxRecommendations - 1].score)
    {
      var k :| 0 <= k < |sorted| && sorted[k] == x;
      if k >= MaxRecommendations {
        assert Rank(sorted[MaxRecommendations - 1]) <= Rank(sorted[k]);
        assert r[MaxRecommendations - 1] == sorted[MaxRecommendations - 1];
      } else {
        assert r[k] == sorted[k];
      }
    }
  }

  /** The integer form of the duration bonus is the bonus of the real average. */
  lemma DurationBonusIsAverageBonus(d: nat, total: nat, n: nat)
    ensures DurationBonus(d, total, n) == AverageBonus(d, if n == 0 then DefaultDuration as real else total as real / n as real)
  {
    if n > 0 {
      var avg, nr := total as real / n as real, n as real;
      var xn, an := (d * n) as real, total as real;
      CastProduct(d, n);
      assert avg * nr == an;
      var m := Abs(d * n - total) as real;
      assert m == if xn >= an then xn - an else an - xn;
      BonusOfScaled(d as real, avg, nr, xn, an, m);
      CastProduct(30, n);
      CastProduct(60, n);
    }
  }

  lemma CastProduct(a: int, b: int)
    ensures (a * b) as real == a as real * b as real
  {
  }

  /** The bonus of `x` against `avg` read off the scaled distance `m = |x*n - avg*n|`. */
  lemma BonusOfScaled(x: real, avg: real, n: real, xn: real, an: real, m: real)
    requires n > 0.0 && xn == x * n && an == avg * n
    requires m == if xn >= an then xn - an else an - xn
    ensures var diff := if x >= avg then x - avg else avg - x;
      (diff <= 30.0 <==> m <= 30.0 * n) && (diff <= 60.0 <==> m <= 60.0 * n)
  {
    var diff := if x >= avg then x - avg else avg - x;
    ScaledDistance(x, avg, n, xn, an);
    ScaleLe(diff, 30.0, n, m, 30.0 * n);
    ScaleLe(diff, 60.0, n, m, 60.0 * n);
  }

  /** Scaling a distance by a positive factor scales the points. */
  lemma ScaledDistance(x: real, y: real, n: real, xn: real, yn: real)
    requires n > 0.0 && xn == x * n && yn == y * n
    ensures (if x >= y then x - y else y - x) * n == (if xn >= yn then xn - yn else yn - xn)
  {
    ScaleLe(y, x, n, yn, xn);
    assert (x - y) * n == xn - yn;
    assert (y - x) * n == yn - xn;
  }

  lemma ScaleLe(x: real, w: real, n: real, xn: real, wn: real)
    requires n > 0.0 && xn == x * n && wn == w * n
    ensures x <= w <==> xn <= wn
  {
    assert (w - x) * n == wn - xn;
  }

  /**
   * The weather bonus never fires on the loaded catalog: every activity it loads carries
   * its group's name as category, never "Indoor" or "Outdoor".
   */
  lemma CatalogGetsNoWeatherBonus(days: seq<Day>, weather: map<Day, int>, a: Activity)
    requires a in AllActivities(Groups)
    ensures WeatherBonus(days, weather, a.category) == 0
  {
    LoadedCategories(a);
  }

  /**
   * With nothing scheduled every candidate scores its duration bonus against the 120-minute
   * default (and the weather bonus), so the ranking is by closeness to two hours.
   */
  lemma EmptyScheduleScore(s: Schedule, weather: map<Day, int>, a: Activity)
    requires s.Valid()
    requires forall d :: d in s.lists ==> s.lists[d] == []
    ensures Score(Placed(s), s.keys, weather, a)
      == AverageBonus(a.duration, DefaultDuration as real) + WeatherBonus(s.keys, weather, a.category)
  {
    EmptyPlaced(s.keys, s.lists);
    DurationBonusIsAverageBonus(a.duration, 0, 0);
  }

  lemma {:induction false} EmptyPlaced(keys: seq<Day>, lists: map<Day, seq<Activity>>)
    requires forall d :: d in keys ==> d in lists && lists[d] == []
    ensures Flat(keys, lists) == []
  {
    if keys != [] {
      EmptyPlaced(keys[1..], lists);
    }
  }
}
