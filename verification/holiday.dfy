/**
 * The pure parts of the holiday service: the holiday tables, region detection by
 * bounding boxes, the regional holiday list, seasons, the long-weekend mapping of a
 * holiday's day of the week, and the recommendations built for upcoming holidays.
 * Today's date, the month and a date's day of the week are parameters.
 */
module Holiday {
  import opened Wrappers
  import opened Seqs
  import opened Activities
  import opened Catalog

  /** A holiday entry: ISO date, name, type, vibe and suggested activity ids. */
  datatype Holiday = Holiday(date: string, name: string, kind: string, vibe: string, suggested: seq<string>)

  const USHolidays: seq<Holiday> := [
    Holiday("2025-01-01", "New Year's Day", "national", "reflective", ["mindfulness-retreat", "digital-detox"]),
    Holiday("2025-01-20", "Martin Luther King Jr. Day", "national", "community", ["networking-meetup", "cultural-workshop"]),
    Holiday("2025-02-17", "Presidents' Day", "national", "adventurous", ["photography-walk", "gallery-exploration"]),
    Holiday("2025-05-26", "Memorial Day", "national", "social", ["farmers-market", "botanical-picnic"]),
    Holiday("2025-07-04", "Independence Day", "national", "energetic", ["dance-workshop", "street-food-adventure"]),
    Holiday("2025-09-01", "Labor Day", "national", "relaxed", ["holistic-spa", "gourmet-brunch"]),
    Holiday("2025-10-13", "Columbus Day", "national", "explorer", ["urban-cycling", "photography-expedition"]),
    Holiday("2025-11-11", "Veterans Day", "national", "grateful", ["mindfulness-retreat", "literary-journey"]),
    Holiday("2025-11-27", "Thanksgiving", "national", "family", ["collaborative-cooking", "trivia-championship"]),
    Holiday("2025-12-25", "Christmas Day", "national", "cozy", ["wine-discovery", "cinema-experience"])
  ]

  const IndiaHolidays: seq<Holiday> := [
    Holiday("2025-01-01", "New Year's Day", "national", "celebratory", ["family-gathering", "cultural-workshop"]),
    Holiday("2025-01-14", "Makar Sankranti", "cultural", "festive", ["cultural-workshop", "street-food-adventure"]),
    Holiday("2025-01-26", "Republic Day", "national", "patriotic", ["cultural-workshop", "photography-walk"]),
    Holiday("2025-02-26", "Maha Shivratri", "religious", "spiritual", ["mindfulness-retreat", "cultural-workshop"]),
    Holiday("2025-03-13", "Holi", "cultural", "festive", ["dance-workshop", "street-food-adventure"]),
    Holiday("2025-03-31", "Ram Navami", "religious", "spiritual", ["mindfulness-retreat", "cultural-workshop"]),
    Holiday("2025-04-14", "Baisakhi", "cultural", "harvest", ["dance-workshop", "farmers-market"]),
    Holiday("2025-07-07", "Guru Purnima", "spiritual", "grateful", ["mindfulness-retreat", "literary-journey"]),
    Holiday("2025-08-15", "Independence Day", "national", "patriotic", ["cultural-workshop", "photography-walk"]),
    Holiday("2025-08-16", "Janmashtami", "religious", "devotional", ["cultural-workshop", "dance-workshop"]),
    Holiday("2025-08-19", "Raksha Bandhan", "cultural", "family", ["family-gathering", "collaborative-cooking"]),
    Holiday("2025-08-31", "Ganesh Chaturthi", "religious", "joyous", ["cultural-workshop", "street-food-adventure"]),
    Holiday("2025-10-02", "Gandhi Jayanti", "national", "reflective", ["mindfulness-retreat", "literary-journey"]),
    Holiday("2025-10-12", "Dussehra", "cultural", "triumphant", ["cultural-workshop", "live-performance"]),
    Holiday("2025-10-20", "Karva Chauth", "cultural", "romantic", ["wine-discovery", "gourmet-brunch"]),
    Holiday("2025-11-01", "Diwali", "cultural", "joyous", ["family-gathering", "cultural-workshop"]),
    Holiday("2025-11-15", "Guru Nanak Jayanti", "religious", "peaceful", ["mindfulness-retreat", "cultural-workshop"]),
    Holiday("2025-12-25", "Christmas Day", "religious", "peaceful", ["wine-discovery", "cinema-experience"])
  ]

  const UKHolidays: seq<Holiday> := [
    Holiday("2025-01-01", "New Year's Day", "national", "fresh-start", ["mindfulness-retreat", "digital-detox"]),
    Holiday("2025-04-18", "Good Friday", "religious", "contemplative", ["literary-journey", "gallery-exploration"]),
    Holiday("2025-04-21", "Easter Monday", "religious", "renewal", ["botanical-picnic", "photography-walk"]),
    Holiday("2025-05-05", "Early May Bank Holiday", "national", "spring", ["farmers-market", "botanical-picnic"]),
    Holiday("2025-05-26", "Spring Bank Holiday", "national", "outdoor", ["urban-cycling", "photography-expedition"]),
    Holiday("2025-08-25", "Summer Bank Holiday", "national", "relaxed", ["holistic-spa", "gourmet-brunch"]),
    Holiday("2025-12-25", "Christmas Day", "national", "cozy", ["wine-discovery", "cinema-experience"]),
    Holiday("2025-12-26", "Boxing Day", "national", "leisurely", ["gourmet-brunch", "live-performance"])
  ]

  const CanadaHolidays: seq<Holiday> := [
    Holiday("2025-01-01", "New Year's Day", "national", "fresh-start", ["mindfulness-retreat", "digital-detox"]),
    Holiday("2025-02-17", "Family Day", "provincial", "family", ["family-gathering", "collaborative-cooking"]),
    Holiday("2025-04-18", "Good Friday", "religious", "contemplative", ["literary-journey", "gallery-exploration"]),
    Holiday("2025-05-19", "Victoria Day", "national", "spring", ["botanical-picnic", "photography-walk"]),
    Holiday("2025-07-01", "Canada Day", "national", "patriotic", ["cultural-workshop", "street-food-adventure"]),
    Holiday("2025-09-01", "Labour Day", "national", "relaxed", ["holistic-spa", "gourmet-brunch"]),
    Holiday("2025-10-13", "Thanksgiving", "national", "grateful", ["collaborative-cooking", "family-gathering"]),
    Holiday("2025-11-11", "Remembrance Day", "national", "respectful", ["mindfulness-retreat", "literary-journey"]),
    Holiday("2025-12-25", "Christmas Day", "national", "cozy", ["wine-discovery", "cinema-experience"]),
    Holiday("2025-12-26", "Boxing Day", "national", "leisurely", ["gourmet-brunch", "live-performance"])
  ]

  const AustraliaHolidays: seq<Holiday> := [
    Holiday("2025-01-01", "New Year's Day", "national", "celebratory", ["beach-day", "outdoor-adventure"]),
    Holiday("2025-01-26", "Australia Day", "national", "patriotic", ["barbecue-gathering", "beach-volleyball"]),
    Holiday("2025-04-18", "Good Friday", "religious", "contemplative", ["literary-journey", "gallery-exploration"]),
    Holiday("2025-04-21", "Easter Monday", "religious", "renewal", ["botanical-picnic", "photography-walk"]),
    Holiday("2025-04-25", "ANZAC Day", "national", "commemorative", ["mindfulness-retreat", "cultural-workshop"]),
    Holiday("2025-06-09", "Queen's Birthday", "national", "traditional", ["cultural-workshop", "live-performance"]),
    Holiday("2025-12-25", "Christmas Day", "national", "summer-celebration", ["beach-picnic", "outdoor-barbecue"]),
    Holiday("2025-12-26", "Boxing Day", "national", "leisurely", ["beach-day", "outdoor-sports"])
  ]

  const InternationalHolidays: seq<Holiday> := [
    Holiday("2025-03-17", "St. Patrick's Day", "cultural", "festive", ["dance-workshop", "street-food-adventure"]),
    Holiday("2025-04-22", "Earth Day", "awareness", "nature", ["botanical-picnic", "mountain-expedition"]),
    Holiday("2025-10-31", "Halloween", "cultural", "creative", ["cultural-workshop", "cinema-experience"]),
    Holiday("2025-02-14", "Valentine's Day", "cultural", "romantic", ["wine-discovery", "live-performance"])
  ]

  /** `holidays2025[region]`, for the region keys the table has. */
  function HolidaysOf(region: string): Option<seq<Holiday>> {
    if region == "us" then Some(USHolidays)
    else if region == "india" then Some(IndiaHolidays)
    else if region == "uk" then Some(UKHolidays)
    else if region == "canada" then Some(CanadaHolidays)
    else if region == "australia" then Some(AustraliaHolidays)
    else if region == "international" then Some(InternationalHolidays)
    else None
  }

  /**
   * `getRegionalHolidays()`: the region's holidays, or India's for a region the table does
   * not have, followed by the international ones.
   */
  function RegionalHolidays(region: string): (r: seq<Holiday>)
    ensures HolidaysOf(region).Some? ==> r == HolidaysOf(region).value + InternationalHolidays
    ensures HolidaysOf(region).None? ==> r == IndiaHolidays + InternationalHolidays
    ensures InternationalHolidays <= r[|r| - |InternationalHolidays|..]
  {
    HolidaysOf(region).GetOr(IndiaHolidays) + InternationalHolidays
  }

  // ---- Region detection ----

  /** A latitude/longitude box, bounds included. */
  datatype Box = Box(latMin: real, latMax: real, lonMin: real, lonMax: real) {
    /** A missing coordinate compares false, so it lies in no box. */
    predicate Holds(lat: Option<real>, lon: Option<real>) {
      lat.Some? && lon.Some?
      && latMin <= lat.value <= latMax && lonMin <= lon.value <= lonMax
    }
  }

  /** `regionMapping`, in declaration order. */
  const RegionMapping: seq<(string, Box)> := [
    ("us", Box(24.0, 49.0, -125.0, -66.0)),
    ("india", Box(8.0, 37.0, 68.0, 97.0)),
    ("uk", Box(49.0, 61.0, -8.0, 2.0)),
    ("canada", Box(42.0, 70.0, -141.0, -52.0)),
    ("australia", Box(-44.0, -10.0, 113.0, 154.0))
  ]

  const DefaultRegion: string := "india"

  /**
   * A location as the service receives it: `latitude`/`lat`, `longitude`/`lng` (each
   * possibly absent) and its `source`.
   */
  datatype Location = Location(latitude: Option<real>, lat: Option<real>, longitude: Option<real>, lng: Option<real>, source: string)

  /** `a || b` on an optional number: an absent or zero `a` gives `b`. */
  function Or(a: Option<real>, b: Option<real>): Option<real> {
    if a.Some? && a.value != 0.0 then a else b
  }

  /** The first region, in order, whose box holds the point. */
  function FirstRegion(mapping: seq<(string, Box)>, lat: Option<real>, lon: Option<real>): (r: Option<string>)
    ensures r.None? <==> forall i :: 0 <= i < |mapping| ==> !mapping[i].1.Holds(lat, lon)
    ensures r.Some? ==> exists i :: (0 <= i < |mapping| && mapping[i].0 == r.value && mapping[i].1.Holds(lat, lon)
      && forall j :: 0 <= j < i ==> !mapping[j].1.Holds(lat, lon))
  {
    if mapping == [] then None
    else if mapping[0].1.Holds(lat, lon) then Some(mapping[0].0)
    else
      var r := FirstRegion(mapping[1..], lat, lon);
      if r.Some? then
        var i :| 0 <= i < |mapping[1..]| && mapping[1..][i].0 == r.value && mapping[1..][i].1.Holds(lat, lon)
          && forall j :: 0 <= j < i ==> !mapping[1..][j].1.Holds(lat, lon);
        assert mapping[i + 1] == mapping[1..][i];
        r
      else
        assert forall i :: 0 < i < |mapping| ==> mapping[i] == mapping[1..][i - 1];
        r
  }

  /**
   * `detectRegionFromLocation(location)`: India without a location or for the New Delhi
   * fallback, otherwise the first region whose box holds the point, else India.
   */
  function DetectRegion(location: Option<Location>): (r: string)
    ensures location.None? ==> r == DefaultRegion
    ensures location.Some? ==>
      var lat, lon := Or(location.value.latitude, location.value.lat), Or(location.value.longitude, location.value.lng);
      r == FirstRegion(RegionMapping, lat, lon).GetOr(DefaultRegion)
  {
    match location
    case None => DefaultRegion
    case Some(loc) =>
      var lat, lon := Or(loc.latitude, loc.lat), Or(loc.longitude, loc.lng);
      if loc.source == "default" && lat == Some(28.6139) && lon == Some(77.2090) then
        assert !RegionMapping[0].1.Holds(lat, lon) && RegionMapping[1].1.Holds(lat, lon);
        DefaultRegion
      else FirstRegion(RegionMapping, lat, lon).GetOr(DefaultRegion)
  }

  /** The US box is checked first, so a point in the band it shares with Canada is in the US. */
  lemma USWinsOverCanada(lat: real, lon: real)
    requires 42.0 <= lat <= 49.0 && -125.0 <= lon <= -66.0
    ensures RegionMapping[3].1.Holds(Some(lat), Some(lon))
    ensures DetectRegion(Some(Location(Some(lat), None, Some(lon), None, ""))) == "us"
  {
    assert lat != 0.0 && lon != 0.0;
  }

  /** A point in no box, or with a coordinate missing, is put in India. */
  lemma NoCoordinateMeansIndia(loc: Location)
    requires Or(loc.latitude, loc.lat).None?
    ensures DetectRegion(Some(loc)) == DefaultRegion
  {
  }

  // ---- The service's region state ----

  datatype ServiceState = ServiceState(region: string, location: Option<Location>)

  const InitialState: ServiceState := ServiceState(DefaultRegion, None)

  /** `setUserLocation(location)`: stores the location and, whatever it is, sets the region to India. */
  function SetUserLocation(st: ServiceState, location: Option<Location>): (r: ServiceState)
    ensures r.region == DefaultRegion && r.location == location
  {
    ServiceState(DefaultRegion, location)
  }

  /** Every way the service sets its region leaves it at India, so the region is always India. */
  lemma RegionStaysIndia(st: ServiceState, location: Option<Location>)
    requires st.region == DefaultRegion
    ensures SetUserLocation(st, location).region == DefaultRegion
    ensures CorrectRegion(st.region) == DefaultRegion
    ensures RegionalHolidays(st.region) == IndiaHolidays + InternationalHolidays
  {
  }

  /** The correction `getHolidayRecommendations` makes: an empty (falsy) or "us" region becomes India. */
  function CorrectRegion(region: string): (r: string)
    ensures region == "" || region == "us" ==> r == DefaultRegion
    ensures region != "" && region != "us" ==> r == region
  {
    if region == "" || region == "us" then DefaultRegion else region
  }

  // ---- Seasons ----

  /** A seasonal suggestion: its months (1 to 12), vibe and activity ids. */
  datatype SeasonData = SeasonData(months: seq<int>, vibe: string, activities: seq<string>)

  const Spring: SeasonData := SeasonData([3, 4, 5], "fresh", ["botanical-picnic", "photography-walk", "farmers-market", "sunrise-yoga"])
  const Summer: SeasonData := SeasonData([6, 7, 8], "energetic", ["mountain-expedition", "urban-cycling", "street-food-adventure", "dance-workshop"])
  const Fall: SeasonData := SeasonData([9, 10, 11], "cozy", ["wine-discovery", "cultural-workshop", "gallery-exploration", "gourmet-brunch"])
  const Winter: SeasonData := SeasonData([12, 1, 2], "reflective", ["mindfulness-retreat", "literary-journey", "holistic-spa", "cinema-experience"])

  /** `seasonalSuggestions`, in declaration order. */
  const Seasons: seq<(string, SeasonData)> := [("spring", Spring), ("summer", Summer), ("fall", Fall), ("winter", Winter)]

  /** What `getCurrentSeason` returns: the data, tagged with the season's key only on the northern path. */
  datatype SeasonInfo = SeasonInfo(season: Option<string>, data: SeasonData)

  /** The first season, in order, whose months include `month`. */
  function SeasonOfMonth(seasons: seq<(string, SeasonData)>, month: int): (r: Option<(string, SeasonData)>)
    ensures r.Some? ==> r.value in seasons && month in r.value.1.months
    ensures r.None? ==> forall s :: s in seasons ==> month !in s.1.months
  {
    if seasons == [] then None
    else if month in seasons[0].1.months then Some(seasons[0])
    else SeasonOfMonth(seasons[1..], month)
  }

  /**
   * `getCurrentSeason()` for the month `month` (1 to 12): in Australia the season six months
   * on, untagged; elsewhere the season whose months include it, tagged; spring, untagged,
   * when none does.
   */
  function CurrentSeason(region: string, month: int): (r: SeasonInfo)
    ensures region == "australia" ==> r.season.None?
    ensures region != "australia" && 1 <= month <= 12 ==> r.season.Some? && month in r.data.months
  {
    if region == "australia" then
      SeasonInfo(None,
        if 3 <= month <= 5 then Fall
        else if 6 <= month <= 8 then Winter
        else if 9 <= month <= 11 then Spring
        else Summer)
    else
      match SeasonOfMonth(Seasons, month)
      case Some((key, data)) => SeasonInfo(Some(key), data)
      case None => SeasonInfo(None, Spring)
  }

  /** The four seasons split the twelve months: every month belongs to exactly one. */
  lemma SeasonsPartitionMonths(month: int)
    requires 1 <= month <= 12
    ensures SeasonOfMonth(Seasons, month).Some?
    ensures forall i, j :: 0 <= i < j < |Seasons| && month in Seasons[i].1.months ==> month !in Seasons[j].1.months
  {
  }

  /** In Australia each month gets the northern season six months away. */
  lemma AustraliaIsShifted(month: int)
    requires 1 <= month <= 12
    ensures CurrentSeason("australia", month).data == CurrentSeason("india", (month + 5) % 12 + 1).data
  {
  }

  // ---- Long weekends ----

  /** A long-weekend opportunity: its type, days, suggestion text and weekend option key. */
  datatype Opportunity = Opportunity(kind: string, days: seq<Day>, suggestion: string, weekendOption: string)

  /**
   * The long-weekend mapping of a holiday on day `dayOfWeek` (0 is Sunday): Monday and
   * Friday give three-day weekends, Thursday and Tuesday a four-day one, other days none.
   */
  function LongWeekend(dayOfWeek: int): (r: Option<Opportunity>)
    ensures r.Some? <==> dayOfWeek in {1, 2, 4, 5}
    ensures dayOfWeek == 1 ==> r.value.weekendOption == "threeDaysMonday"
    ensures dayOfWeek == 5 ==> r.value.weekendOption == "threeDaysFriday"
    ensures dayOfWeek == 4 ==> r.value.weekendOption == "fourDaysThursday"
    ensures dayOfWeek == 2 ==> r.value.weekendOption == "fourDaysMonday"
  {
    if dayOfWeek == 1 then
      Some(Opportunity("3-day weekend", [Saturday, Sunday, Monday],
        "Take advantage of this Monday holiday for a 3-day adventure!", "threeDaysMonday"))
    else if dayOfWeek == 5 then
      Some(Opportunity("3-day weekend", [Friday, Saturday, Sunday],
        "Perfect Friday holiday for an extended weekend getaway!", "threeDaysFriday"))
    else if dayOfWeek == 4 || dayOfWeek == 2 then
      Some(Opportunity("4-day weekend opportunity",
        if dayOfWeek == 4 then [Thursday, Friday, Saturday, Sunday] else [Friday, Saturday, Sunday, Monday],
        "Consider taking an extra day off for a mini-vacation!",
        if dayOfWeek == 4 then "fourDaysThursday" else "fourDaysMonday"))
    else None
  }

  /** Every opportunity names a weekend option that exists and has exactly the opportunity's days. */
  lemma LongWeekendOptionsExist(dayOfWeek: int)
    requires LongWeekend(dayOfWeek).Some?
    ensures var o := LongWeekend(dayOfWeek).value;
      FindOption(WeekendOptions, o.weekendOption).Some?
      && FindOption(WeekendOptions, o.weekendOption).value.days == o.days
  {
    if dayOfWeek == 1 {
      assert FindOption(WeekendOptions, "threeDaysMonday") == Some(WeekendOptions[2]);
    } else if dayOfWeek == 5 {
      assert FindOption(WeekendOptions, "threeDaysFriday") == Some(WeekendOptions[1]);
    } else if dayOfWeek == 4 {
      assert FindOption(WeekendOptions, "fourDaysThursday") == Some(WeekendOptions[3]);
    } else {
      assert FindOption(WeekendOptions, "fourDaysMonday") == Some(WeekendOptions[4]);
    }
  }

  // ---- Recommendations ----

  const MaxActivities: nat := 4
  const MaxTips: nat := 3
  const MaxHolidays: nat := 3

  /**
   * `getRecommendedActivities(holiday, season)`: the holiday's suggestions, then the
   * season's, without repeats, at most four.
   */
  function RecommendedActivities(holiday: seq<string>, season: seq<string>): (r: seq<string>)
    ensures |r| <= MaxActivities && Distinct(r)
    ensures forall x :: x in r ==> x in holiday || x in season
    ensures r == Take(Dedup(holiday + season), MaxActivities)
    ensures forall i :: 0 <= i < |r| && i < |Dedup(holiday)| ==> r[i] == Dedup(holiday)[i]
    ensures forall i :: |Dedup(holiday)| <= i < |r| ==> r[i] in season && r[i] !in holiday
  {
    DedupSplit(holiday, season);
    Take(Dedup(holiday + season), MaxActivities)
  }

  /** The general tips; each is written with its initial split off so that proofs can read it. */
  const BaseTips: seq<string> := [
    "B" + "ook accommodations early for holiday weekends",
    "C" + "heck local event calendars for special celebrations",
    "C" + "onsider weather patterns for outdoor activities",
    "P" + "lan transportation in advance for popular destinations"
  ]

  function OpportunityTip(o: Opportunity): string {
    "Take advantage of the " + o.kind + " - " + o.suggestion
  }

  /** `getPlanningTips(holiday)`: the opportunity's tip first when there is one, three tips in all. */
  function PlanningTips(opportunity: Option<Opportunity>): (r: seq<string>)
    ensures |r| == MaxTips
    ensures opportunity.Some? ==> r[0] == OpportunityTip(opportunity.value) && r[1..] == BaseTips[..2]
    ensures opportunity.None? ==> r == BaseTips[..3]
  {
    var tips := match opportunity
      case Some(o) => [OpportunityTip(o)] + BaseTips
      case None => BaseTips;
    Take(tips, MaxTips)
  }

  /** No base tip starts with 'T', and the first three differ (their lengths do). */
  lemma BaseTipsStartOtherwise()
    ensures forall i :: 0 <= i < |BaseTips| ==> |BaseTips[i]| > 0 && BaseTips[i][0] != 'T'
    ensures Distinct(BaseTips[..3])
  {
    assert |BaseTips[0]| == 46 && |BaseTips[1]| == 52 && |BaseTips[2]| == 48;
  }

  /** Every opportunity tip starts with 'T'. */
  lemma OpportunityTipInitial(o: Opportunity)
    ensures |OpportunityTip(o)| > 0 && OpportunityTip(o)[0] == 'T'
  {
  }

  /** The first tip speaks of an opportunity exactly when there is one. */
  lemma FirstTipIffOpportunity(opportunity: Option<Opportunity>)
    ensures (exists o :: PlanningTips(opportunity)[0] == OpportunityTip(o)) <==> opportunity.Some?
  {
    if opportunity.Some? {
      assert PlanningTips(opportunity)[0] == OpportunityTip(opportunity.value);
    } else {
      BaseTipsStartOtherwise();
      forall o ensures PlanningTips(opportunity)[0] != OpportunityTip(o) {
        OpportunityTipInitial(o);
      }
    }
  }

  /** The three tips never repeat: an opportunity tip starts "T", no base tip does. */
  lemma PlanningTipsDistinct(opportunity: Option<Opportunity>)
    ensures Distinct(PlanningTips(opportunity))
  {
    BaseTipsStartOtherwise();
    if opportunity.Some? {
      OpportunityTipInitial(opportunity.value);
      var r := PlanningTips(opportunity);
      assert r[1] == BaseTips[0] && r[2] == BaseTips[1];
    }
  }

  /** An upcoming holiday: the entry and the day of the week it falls on. */
  datatype Upcoming = Upcoming(holiday: Holiday, dayOfWeek: int)

  /** One recommendation: the holiday, its opportunity, activities and tips. */
  datatype Recommendation = Recommendation(holiday: Holiday, opportunity: Option<Opportunity>, activities: seq<string>, tips: seq<string>)

  function Recommend(u: Upcoming, season: SeasonData): Recommendation {
    var o := LongWeekend(u.dayOfWeek);
    Recommendation(u.holiday, o, RecommendedActivities(u.holiday.suggested, season.activities), PlanningTips(o))
  }

  /**
   * `getHolidayRecommendations()` in month `month`: the region is corrected first, then
   * the first three upcoming holidays (`upcoming` is the date-filtered, date-ordered list
   * the clock gives) are each paired with their long-weekend opportunity, the activities
   * merged with the corrected region's current season, and the planning tips.
   */
  function HolidayRecommendations(st: ServiceState, upcoming: seq<Upcoming>, month: int): (r: (ServiceState, seq<Recommendation>))
    ensures r.0.region == CorrectRegion(st.region) && r.0.location == st.location
    ensures |r.1| == if |upcoming| < MaxHolidays then |upcoming| else MaxHolidays
    ensures forall i :: 0 <= i < |r.1| ==>
      && r.1[i].holiday == upcoming[i].holiday
      && r.1[i].opportunity == LongWeekend(upcoming[i].dayOfWeek)
      && r.1[i].activities == RecommendedActivities(upcoming[i].holiday.suggested, CurrentSeason(r.0.region, month).data.activities)
      && r.1[i].tips == PlanningTips(r.1[i].opportunity)
  {
    var corrected := st.(region := CorrectRegion(st.region));
    var season := CurrentSeason(corrected.region, month).data;
    var top := Take(upcoming, MaxHolidays);
    (corrected, seq(|top|, i requires 0 <= i < |top| => Recommend(top[i], season)))
  }

  /** The correction is idempotent: a corrected region is left as it is. */
  lemma CorrectRegionIdempotent(region: string)
    ensures CorrectRegion(CorrectRegion(region)) == CorrectRegion(region)
    ensures CorrectRegion(region) != "us"
  {
  }

  /**
   * Asking again from the state a call leaves gives the same answer: the first call
   * already corrected the region, and nothing else in the state is touched.
   */
  lemma HolidayRecommendationsStable(st: ServiceState, upcoming: seq<Upcoming>, month: int)
    ensures var r := HolidayRecommendations(st, upcoming, month);
      HolidayRecommendations(r.0, upcoming, month) == r
  {
    CorrectRegionIdempotent(st.region);
  }

  /**
   * A recommendation carries an opportunity exactly when its holiday falls on a Monday,
   * Tuesday, Thursday or Friday, and its tips then open with that opportunity.
   */
  lemma OpportunityIffLongWeekendDay(st: ServiceState, upcoming: seq<Upcoming>, month: int, i: nat)
    requires i < |upcoming| && i < MaxHolidays
    ensures var rec := HolidayRecommendations(st, upcoming, month).1[i];
      && (rec.opportunity.Some? <==> upcoming[i].dayOfWeek in {1, 2, 4, 5})
      && ((exists o :: rec.tips[0] == OpportunityTip(o)) <==> rec.opportunity.Some?)
  {
    FirstTipIffOpportunity(HolidayRecommendations(st, upcoming, month).1[i].opportunity);
  }

  // ---- Holiday lookup ----

  /**
   * `isHoliday(date)`: the first US or international holiday on that ISO date. The
   * table consulted is the US one whatever the user's region.
   */
  function IsHoliday(date: string): (r: Option<Holiday>)
    ensures r.Some? ==> r.value in USHolidays + InternationalHolidays && r.value.date == date
    ensures r.None? ==> forall h :: h in USHolidays + InternationalHolidays ==> h.date != date
  {
    FindHoliday(USHolidays + InternationalHolidays, date)
  }

  function FindHoliday(hs: seq<Holiday>, date: string): (r: Option<Holiday>)
    ensures r.Some? ==> r.value in hs && r.value.date == date
    ensures r.None? ==> forall h :: h in hs ==> h.date != date
  {
    if hs == [] then None
    else if hs[0].date == date then Some(hs[0])
    else FindHoliday(hs[1..], date)
  }

  /** `isPartOfLongWeekend(date)`: a holiday on a Monday or a Friday. */
  function IsPartOfLongWeekend(date: string, dayOfWeek: int): (r: bool)
    ensures r <==> IsHoliday(date).Some? && (dayOfWeek == 1 || dayOfWeek == 5)
  {
    IsHoliday(date).Some? && (dayOfWeek == 1 || dayOfWeek == 5)
  }

  /**
   * For a holiday, "part of a long weekend" agrees with the long-weekend mapping on
   * three-day weekends only: a four-day opportunity (a Tuesday or Thursday holiday)
   * is never reported as part of a long weekend.
   */
  lemma LongWeekendAgreesOnThreeDays(date: string, dayOfWeek: int)
    requires IsHoliday(date).Some?
    ensures IsPartOfLongWeekend(date, dayOfWeek) <==>
      LongWeekend(dayOfWeek).Some? && LongWeekend(dayOfWeek).value.kind == "3-day weekend"
  {
    if dayOfWeek == 2 || dayOfWeek == 4 {
      assert LongWeekend(dayOfWeek).value.kind[0] == '4';
    }
  }

  /**
   * The lookup reads only the US and international tables: India's Independence Day,
   * a Friday in 2025, is not found, so it is not reported as part of a long weekend.
   */
  lemma IndianHolidayNotFound()
    ensures !IsPartOfLongWeekend("2025-08-15", 5)
  {
    assert "2025-08-15"[6] == '8';
    NoAugustHoliday(USHolidays + InternationalHolidays, "2025-08-15");
  }

  /** India's table does hold a holiday on that date. */
  lemma IndiaHasAugust15()
    ensures exists h :: h in RegionalHolidays(DefaultRegion) && h.date == "2025-08-15"
  {
    var h := Holiday("2025-08-15", "Independence Day", "national", "patriotic", ["cultural-workshop", "photography-walk"]);
    assert IndiaHolidays[8] == h;
    assert RegionalHolidays(DefaultRegion)[8] == h;
  }

  /** No US or international holiday falls in August (the month's second digit is never 8). */
  lemma NotInAugust()
    ensures forall h :: h in USHolidays + InternationalHolidays ==> |h.date| > 6 && h.date[6] != '8'
  {
    var all := USHolidays + InternationalHolidays;
    forall k | 0 <= k < |all| ensures |all[k].date| > 6 && all[k].date[6] != '8' {
      if k < 5 {
        assert k == 0 || k == 1 || k == 2 || k == 3 || k == 4;
      } else if k < 10 {
        assert k == 5 || k == 6 || k == 7 || k == 8 || k == 9;
      } else {
        assert k == 10 || k == 11 || k == 12 || k == 13;
      }
    }
  }

  lemma NoAugustHoliday(hs: seq<Holiday>, date: string)
    requires hs == USHolidays + InternationalHolidays
    requires |date| > 6 && date[6] == '8'
    ensures FindHoliday(hs, date).None?
  {
    NotInAugust();
  }

  /** Memorial Day (a Monday) starts a long weekend. */
  lemma MemorialDayIsLongWeekend()
    ensures IsPartOfLongWeekend("2025-05-26", 1)
  {
    assert USHolidays[3].date == "2025-05-26";
    assert USHolidays[3] in USHolidays + InternationalHolidays;
  }
}
