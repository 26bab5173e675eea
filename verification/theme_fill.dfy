/**
 * `applyTheme`: a curated theme replaces the whole schedule. Its activity ids are looked
 * up in the catalog (unknown ids are dropped) and the activities are dealt round-robin
 * over the days of the active weekend option.
 */
module ThemeFill {
  import opened Seqs
  import opened Activities
  import opened Schedules
  import opened Catalog
  import opened Planner
  import opened Modular

  /** `acts[k], acts[k + n], acts[k + 2n], ...`: the activities a round-robin deal gives to the k-th day. */
  function Every(acts: seq<Activity>, k: nat, n: nat): seq<Activity>
    requires n > 0
    decreases |acts| - k
  {
    if k >= |acts| then [] else [acts[k]] + Every(acts, k + n, n)
  }

  /**
   * The deal as the source runs it: a schedule with an empty list for each day, then
   * the i-th activity pushed onto `days[i % days.length]`.
   */
  function Deal(acts: seq<Activity>, days: seq<Day>): (r: Schedule)
    requires |days| > 0 && Distinct(days)
    ensures r.Valid() && r.keys == days
  {
    if acts == [] then Empty(days)
    else
      var prev := Deal(acts[..|acts| - 1], days);
      var d := days[(|acts| - 1) % |days|];
      Put(prev, d, prev.lists[d] + [acts[|acts| - 1]])
  }

  /** Appending `x` at position `|acts|` extends the k-th stride exactly when `|acts|` lies on it. */
  lemma {:induction false} EverySnoc(acts: seq<Activity>, x: Activity, k: nat, n: nat)
    requires n > 0
    ensures Every(acts + [x], k, n) == Every(acts, k, n) + (if k <= |acts| && (|acts| - k) % n == 0 then [x] else [])
    decreases |acts| - k
  {
    var s := acts + [x];
    if k > |acts| {
    } else if k == |acts| {
      assert s[k] == x;
      assert Every(s, k, n) == [x] + Every(s, k + n, n);
    } else {
      assert s[k] == acts[k];
      EverySnoc(acts, x, k + n, n);
      ModShift(|acts| - k, n);
    }
  }

  /** For a day index `k < n`, position `m` lies on the k-th stride exactly when `m % n == k`. */
  lemma StrideIndex(m: nat, k: nat, n: nat)
    requires k < n
    ensures (k <= m && (m - k) % n == 0) <==> m % n == k
  {
    if k <= m && (m - k) % n == 0 {
      assert m - k == ((m - k) / n) * n + 0;
      DivModUnique(m, n, (m - k) / n, k);
    }
    if m % n == k {
      assert m == (m / n) * n + k;
      DivModUnique(m - k, n, m / n, 0);
      if m / n > 0 {
        MulAtLeast(m / n, n);
      }
    }
  }

  /** The i-th activity lands on `days[i % n]`, in order: each day's list is its stride of the input. */
  lemma {:induction false} DealIsRoundRobin(acts: seq<Activity>, days: seq<Day>)
    requires |days| > 0 && Distinct(days)
    ensures forall k :: 0 <= k < |days| ==> Deal(acts, days).lists[days[k]] == Every(acts, k, |days|)
  {
    var n := |days|;
    if acts == [] {
    } else {
      var init, x := acts[..|acts| - 1], acts[|acts| - 1];
      assert acts == init + [x];
      DealIsRoundRobin(init, days);
      var prev := Deal(init, days);
      var m := |init|;
      forall k | 0 <= k < n
        ensures Deal(acts, days).lists[days[k]] == Every(acts, k, n)
      {
        EverySnoc(init, x, k, n);
        StrideIndex(m, k, n);
        assert days[k] == days[m % n] <==> k == m % n;
      }
    }
  }

  /**
   * `applyTheme(themeKey)` for a theme: the schedule becomes the deal of the theme's
   * resolvable activities over `days`; the bucket is kept.
   */
  function ApplyTheme(p: Plan, catalog: seq<Activity>, theme: Theme, days: seq<Day>): (r: Plan)
    requires |days| > 0 && Distinct(days)
    ensures r.bucket == p.bucket
    ensures r.schedule.Valid() && r.schedule.keys == days
    ensures forall k :: 0 <= k < |days| ==>
      r.schedule.lists[days[k]] == Every(Resolve(catalog, theme.activities), k, |days|)
  {
    var acts := Resolve(catalog, theme.activities);
    DealIsRoundRobin(acts, days);
    Plan(Deal(acts, days), p.bucket)
  }

  /** The theme replaces the whole schedule, so applying it twice gives the same plan as once. */
  lemma ApplyThemeIdempotent(p: Plan, catalog: seq<Activity>, theme: Theme, days: seq<Day>)
    requires |days| > 0 && Distinct(days)
    ensures ApplyTheme(ApplyTheme(p, catalog, theme, days), catalog, theme, days) == ApplyTheme(p, catalog, theme, days)
  {
  }
}
