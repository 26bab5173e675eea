/**
 * The static catalog: activity groups, curated themes and the weekend-length options,
 * with the loader that flattens the groups into one activity list.
 */
module Catalog {
  import opened Wrappers
  import opened Seqs
  import opened Activities

  /** A catalog group: its key, display name and activities (each marked "Indoor" or "Outdoor"). */
  datatype Group = Group(key: string, name: string, activities: seq<Activity>)

  /** A curated theme: a named list of activity ids. */
  datatype Theme = Theme(key: string, name: string, activities: seq<string>, mood: string)

  /** A weekend length: its key, display name and ordered days. */
  datatype WeekendOption = WeekendOption(key: string, name: string, days: seq<Day>)

  /** "HH:MM" as minutes after midnight. */
  function Clock(h: nat, m: nat): (t: Minute)
    requires h < 24 && m < 60
    ensures t / 60 == h && t % 60 == m
  {
    h * 60 + m
  }

  const CulinaryActivities: seq<Activity> := [
    Activity("gourmet-brunch", "Artisan Brunch Experience", 120, "sophisticated", Clock(10, 30), "low", "Indoor",
      "Indulge in a carefully crafted brunch with locally sourced ingredients"),
    Activity("collaborative-cooking", "Collaborative Cooking Session", 150, "creative", Clock(17, 30), "medium", "Indoor",
      "Team up to create culinary masterpieces together"),
    Activity("wine-discovery", "Wine & Cheese Discovery", 180, "refined", Clock(16, 0), "low", "Indoor",
      "Explore exquisite wine and cheese pairings"),
    Activity("street-food-adventure", "Street Food Expedition", 90, "adventurous", Clock(12, 30), "medium", "Outdoor",
      "Discover hidden culinary gems around the city"),
    Activity("farmers-market", "Farmers Market Tour", 120, "authentic", Clock(9, 0), "medium", "Outdoor",
      "Source fresh ingredients and connect with local producers")
  ]

  const AdventureActivities: seq<Activity> := [
    Activity("mountain-expedition", "Mountain Trail Expedition", 300, "challenging", Clock(7, 30), "high", "Outdoor",
      "Conquer scenic trails and discover breathtaking vistas"),
    Activity("botanical-picnic", "Botanical Garden Picnic", 180, "serene", Clock(12, 0), "low", "Outdoor",
      "Relax among beautiful flora with a gourmet picnic"),
    Activity("urban-cycling", "Urban Cycling Tour", 150, "dynamic", Clock(9, 30), "high", "Outdoor",
      "Explore the city's hidden corners on two wheels"),
    Activity("astronomy-night", "Astronomical Observatory", 180, "mystical", Clock(21, 30), "low", "Outdoor",
      "Gaze at celestial wonders and learn about the cosmos"),
    Activity("photography-walk", "Photography Expedition", 200, "artistic", Clock(8, 0), "medium", "Outdoor",
      "Capture stunning moments and improve your photography skills")
  ]

  const CulturalActivities: seq<Activity> := [
    Activity("cinema-experience", "Independent Cinema Experience", 200, "thoughtful", Clock(19, 30), "low", "Indoor",
      "Discover thought-provoking films and engage in discussions"),
    Activity("live-performance", "Live Musical Performance", 180, "electrifying", Clock(20, 30), "medium", "Indoor",
      "Experience the energy of live music in intimate venues"),
    Activity("gallery-exploration", "Contemporary Art Gallery", 150, "inspiring", Clock(14, 30), "low", "Indoor",
      "Explore contemporary art and expand your creative horizons"),
    Activity("board-game-tournament", "Strategy Game Tournament", 240, "competitive", Clock(19, 0), "low", "Indoor",
      "Challenge friends in strategic thinking and friendly competition"),
    Activity("cultural-workshop", "Cultural Arts Workshop", 180, "creative", Clock(15, 0), "medium", "Indoor",
      "Learn traditional crafts and express your creativity")
  ]

  const MindfulnessActivities: seq<Activity> := [
    Activity("holistic-spa", "Holistic Spa Retreat", 300, "rejuvenating", Clock(10, 0), "low", "Indoor",
      "Immerse yourself in complete relaxation and rejuvenation"),
    Activity("sunrise-yoga", "Sunrise Yoga Session", 90, "energizing", Clock(6, 30), "medium", "Outdoor",
      "Start your day with mindful movement and breath work"),
    Activity("mindfulness-retreat", "Mindfulness Meditation Retreat", 120, "centering", Clock(8, 0), "low", "Indoor",
      "Cultivate inner peace and mental clarity through guided meditation"),
    Activity("literary-journey", "Literary Exploration", 180, "contemplative", Clock(15, 30), "low", "Indoor",
      "Dive into captivating stories and expand your literary horizons"),
    Activity("digital-detox", "Digital Detox Experience", 240, "liberating", Clock(11, 0), "low", "Outdoor",
      "Disconnect from technology and reconnect with yourself")
  ]

  const SocialActivities: seq<Activity> := [
    Activity("community-volunteering", "Community Volunteering", 240, "meaningful", Clock(9, 0), "medium", "Outdoor",
      "Give back to your community and make a positive impact"),
    Activity("trivia-championship", "Trivia Championship", 150, "competitive", Clock(20, 0), "medium", "Indoor",
      "Test your knowledge and compete in friendly trivia battles"),
    Activity("dance-workshop", "Dance Workshop", 120, "expressive", Clock(18, 0), "high", "Indoor",
      "Learn new dance moves and express yourself through movement"),
    Activity("networking-meetup", "Creative Networking Meetup", 180, "inspiring", Clock(17, 0), "medium", "Indoor",
      "Connect with like-minded individuals and expand your network")
  ]

  const Groups: seq<Group> := [
    Group("culinary", "Culinary Experiences", CulinaryActivities),
    Group("adventure", "Outdoor Expeditions", AdventureActivities),
    Group("cultural", "Cultural Immersion", CulturalActivities),
    Group("mindfulness", "Mindful Living", MindfulnessActivities),
    Group("social", "Social Connections", SocialActivities)
  ]

  const Themes: seq<Theme> := [
    Theme("mindfulEscape", "Mindful Escape",
      ["mindfulness-retreat", "holistic-spa", "botanical-picnic", "literary-journey"], "serene"),
    Theme("urbanExplorer", "Urban Explorer",
      ["street-food-adventure", "urban-cycling", "photography-walk", "gallery-exploration"], "adventurous"),
    Theme("creativeSoul", "Creative Soul",
      ["cultural-workshop", "live-performance", "collaborative-cooking", "cinema-experience"], "inspiring"),
    Theme("socialButterfly", "Social Butterfly",
      ["networking-meetup", "dance-workshop", "trivia-championship", "farmers-market"], "energetic"),
    Theme("wellnessWarrior", "Wellness Warrior",
      ["sunrise-yoga", "mountain-expedition", "digital-detox", "gourmet-brunch"], "balanced"),
    Theme("luxurySeeker", "Luxury Seeker",
      ["wine-discovery", "holistic-spa", "astronomy-night", "independent-cinema"], "sophisticated")
  ]

  const WeekendOptions: seq<WeekendOption> := [
    WeekendOption("twoDays", "Default", [Saturday, Sunday]),
    WeekendOption("threeDaysFriday", "3-Day (Fri-Sun)", [Friday, Saturday, Sunday]),
    WeekendOption("threeDaysMonday", "3-Day (Sat-Mon)", [Saturday, Sunday, Monday]),
    WeekendOption("fourDaysThursday", "4-Day (Thu-Sun)", [Thursday, Friday, Saturday, Sunday]),
    WeekendOption("fourDaysMonday", "4-Day (Fri-Mon)", [Friday, Saturday, Sunday, Monday]),
    WeekendOption("fourDaysTuesday", "4-Day (Sat-Tue)", [Saturday, Sunday, Monday, Tuesday])
  ]

  /** `weekendOptions[key]`. */
  function FindOption(options: seq<WeekendOption>, key: string): (r: Option<WeekendOption>)
    ensures r.Some? ==> r.value in options && r.value.key == key
    ensures r.None? ==> forall o :: o in options ==> o.key != key
  {
    if options == [] then None
    else if options[0].key == key then Some(options[0])
    else FindOption(options[1..], key)
  }

  /** `themes[key]`. */
  function FindTheme(themes: seq<Theme>, key: string): (r: Option<Theme>)
    ensures r.Some? ==> r.value in themes && r.value.key == key
    ensures r.None? ==> forall t :: t in themes ==> t.key != key
  {
    if themes == [] then None
    else if themes[0].key == key then Some(themes[0])
    else FindTheme(themes[1..], key)
  }

  /** One group's activities with their category replaced by the group's display name. */
  function Relabel(acts: seq<Activity>, name: string): (r: seq<Activity>)
    ensures |r| == |acts|
    ensures forall i :: 0 <= i < |r| ==> r[i] == acts[i].(category := name)
  {
    if acts == [] then []
    else [acts[0].(category := name)] + Relabel(acts[1..], name)
  }

  /**
   * `getAllActivities()`: every activity of every group, group by group, each with
   * its "Indoor"/"Outdoor" category overwritten by its group's name.
   */
  function AllActivities(groups: seq<Group>): (r: seq<Activity>)
    ensures forall a :: a in r <==> exists g, b :: g in groups && b in g.activities && a == b.(category := g.name)
  {
    if groups == [] then []
    else
      var head, rest := Relabel(groups[0].activities, groups[0].name), AllActivities(groups[1..]);
      assert forall a :: a in head <==> exists b :: b in groups[0].activities && a == b.(category := groups[0].name) by {
        forall a | a in head
          ensures exists b :: b in groups[0].activities && a == b.(category := groups[0].name)
        {
          var i :| 0 <= i < |head| && head[i] == a;
          assert groups[0].activities[i] in groups[0].activities;
        }
        forall b | b in groups[0].activities
          ensures b.(category := groups[0].name) in head
        {
          var i :| 0 <= i < |groups[0].activities| && groups[0].activities[i] == b;
          assert head[i] == b.(category := groups[0].name);
        }
      }
      assert forall g :: g in groups <==> g == groups[0] || g in groups[1..];
      head + rest
  }

  /** The ids a catalog can resolve from `ids`, in order: unknown ids are dropped. */
  function KnownIds(catalog: seq<Activity>, ids: seq<string>): seq<string> {
    if ids == [] then []
    else if HasId(catalog, ids[0]) then [ids[0]] + KnownIds(catalog, ids[1..])
    else KnownIds(catalog, ids[1..])
  }

  /**
   * `ids.map(id => catalog.find(a => a.id === id)).filter(Boolean)`: the first
   * catalog activity for each id, skipping ids the catalog does not know.
   */
  function Resolve(catalog: seq<Activity>, ids: seq<string>): (r: seq<Activity>)
    ensures |r| == |KnownIds(catalog, ids)|
    ensures forall i :: 0 <= i < |r| ==> r[i] in catalog && r[i].id == KnownIds(catalog, ids)[i]
  {
    if ids == [] then []
    else match FindById(catalog, ids[0])
      case None => Resolve(catalog, ids[1..])
      case Some(a) => [a] + Resolve(catalog, ids[1..])
  }

  /** Every weekend option lists two to four distinct days. */
  lemma OptionsWellFormed()
    ensures forall o :: o in WeekendOptions ==> 2 <= |o.days| <= 4 && Distinct(o.days)
  {
    forall k | 0 <= k < |WeekendOptions| ensures 2 <= |WeekendOptions[k].days| <= 4 && Distinct(WeekendOptions[k].days) {
      var days := WeekendOptions[k].days;
      assert k == 0 || k == 1 || k == 2 || k == 3 || k == 4 || k == 5;
    }
  }

  /** Every curated theme names four activities. */
  lemma ThemesHaveFourActivities()
    ensures forall t :: t in Themes ==> |t.activities| == 4
  {
  }

  /** A raw catalog entry: marked "Indoor" or "Outdoor", with a positive duration. */
  predicate RawActivity(b: Activity) {
    (b.category == "Indoor" || b.category == "Outdoor") && b.duration > 0
  }

  /** Every raw catalog activity is marked "Indoor" or "Outdoor" and lasts a positive time. */
  lemma RawCategories()
    ensures forall g, b :: g in Groups && b in g.activities ==> RawActivity(b)
  {
    forall g, b | g in Groups && b in g.activities ensures RawActivity(b) {
      GroupFacts(g, b);
    }
  }

  /** Raw activities with ids that are never 18 characters long. */
  predicate PlainGroup(acts: seq<Activity>) {
    forall b :: b in acts ==> RawActivity(b) && |b.id| != 18
  }

  lemma CulinaryPlain() ensures PlainGroup(CulinaryActivities) {}
  lemma AdventurePlain() ensures PlainGroup(AdventureActivities) {}
  lemma CulturalPlain() ensures PlainGroup(CulturalActivities) {}
  lemma MindfulnessPlain() ensures PlainGroup(MindfulnessActivities) {}
  lemma SocialPlain() ensures PlainGroup(SocialActivities) {}

  /** Every group's activities are raw, and none has an 18-character id. */
  lemma GroupFacts(g: Group, b: Activity)
    requires g in Groups && b in g.activities
    ensures RawActivity(b) && |b.id| != 18
  {
    var k :| 0 <= k < |Groups| && Groups[k] == g;
    if k == 0 {
      CulinaryPlain();
    } else if k == 1 {
      AdventurePlain();
    } else if k == 2 {
      CulturalPlain();
    } else if k == 3 {
      MindfulnessPlain();
    } else {
      SocialPlain();
    }
  }

  /** After loading, an activity's category is its group's display name, never "Indoor" or "Outdoor". */
  lemma LoadedCategories(a: Activity)
    requires a in AllActivities(Groups)
    ensures a.category != "Indoor" && a.category != "Outdoor"
  {
    var g, b :| g in Groups && b in g.activities && a == b.(category := g.name);
    GroupNamesAreNotRaw();
  }

  /** No group is named "Indoor" or "Outdoor". */
  lemma GroupNamesAreNotRaw()
    ensures forall g :: g in Groups ==> g.name != "Indoor" && g.name != "Outdoor"
  {
  }

  /** A raw activity of a group is in the loaded catalog under its group's name. */
  lemma Loaded(g: Group, b: Activity)
    requires g in Groups && b in g.activities
    ensures b.(category := g.name) in AllActivities(Groups)
  {
  }

  /** No raw activity has the id "independent-cinema": no catalog id has its length, 18. */
  lemma NoIndependentCinema()
    ensures forall g, b :: g in Groups && b in g.activities ==> b.id != "independent-cinema"
  {
    forall g, b | g in Groups && b in g.activities ensures b.id != "independent-cinema" {
      GroupFacts(g, b);
    }
  }

  /** The ids of `acts`, in order. */
  function IdsOf(acts: seq<Activity>): (r: seq<string>)
    ensures |r| == |acts|
    ensures forall i :: 0 <= i < |r| ==> r[i] == acts[i].id
  {
    if acts == [] then [] else [acts[0].id] + IdsOf(acts[1..])
  }

  /** The ids of the groups' activities, group by group. */
  function GroupIds(groups: seq<Group>): seq<string> {
    if groups == [] then [] else IdsOf(groups[0].activities) + GroupIds(groups[1..])
  }

  /** Loading keeps every id and its position: the loaded ids are the groups' ids in group order. */
  lemma {:induction false} AllActivitiesIds(groups: seq<Group>)
    ensures IdsOf(AllActivities(groups)) == GroupIds(groups)
  {
    if groups != [] {
      AllActivitiesIds(groups[1..]);
      var head, rest := Relabel(groups[0].activities, groups[0].name), AllActivities(groups[1..]);
      assert AllActivities(groups) == head + rest;
      assert IdsOf(head + rest) == IdsOf(head) + IdsOf(rest);
      assert IdsOf(head) == IdsOf(groups[0].activities);
    }
  }

  /** The catalog's ids, group by group. */
  const CatalogIds: seq<string> := [
    "gourmet-brunch", "collaborative-cooking", "wine-discovery", "street-food-adventure",
    "farmers-market", "mountain-expedition", "botanical-picnic", "urban-cycling",
    "astronomy-night", "photography-walk", "cinema-experience", "live-performance",
    "gallery-exploration", "board-game-tournament", "cultural-workshop", "holistic-spa",
    "sunrise-yoga", "mindfulness-retreat", "literary-journey", "digital-detox",
    "community-volunteering", "trivia-championship", "dance-workshop", "networking-meetup"
  ]

  /** One group whose ids are `ids[i..j]`, followed by groups whose ids are `ids[j..]`. */
  lemma GroupIdsStep(groups: seq<Group>, ids: seq<string>, i: nat, j: nat)
    requires groups != [] && i <= j <= |ids|
    requires IdsOf(groups[0].activities) == ids[i..j] && GroupIds(groups[1..]) == ids[j..]
    ensures GroupIds(groups) == ids[i..]
  {
    assert ids[i..] == ids[i..j] + ids[j..];
  }

  lemma CulinaryIds() ensures IdsOf(CulinaryActivities) == CatalogIds[0..5] {}
  lemma AdventureIds() ensures IdsOf(AdventureActivities) == CatalogIds[5..10] {}
  lemma CulturalIds() ensures IdsOf(CulturalActivities) == CatalogIds[10..15] {}
  lemma MindfulnessIds() ensures IdsOf(MindfulnessActivities) == CatalogIds[15..20] {}
  lemma SocialIds() ensures IdsOf(SocialActivities) == CatalogIds[20..] {}

  /** Five groups whose ids fill consecutive slices of `ids` have exactly `ids` as their ids. */
  lemma {:induction false} GroupIdsAre(groups: seq<Group>, ids: seq<string>)
    requires |groups| == 5 && |ids| == 24
    requires IdsOf(groups[0].activities) == ids[0..5] && IdsOf(groups[1].activities) == ids[5..10]
    requires IdsOf(groups[2].activities) == ids[10..15] && IdsOf(groups[3].activities) == ids[15..20]
    requires IdsOf(groups[4].activities) == ids[20..]
    ensures GroupIds(groups) == ids
  {
    var g1, g2, g3, g4 := groups[1..], groups[2..], groups[3..], groups[4..];
    assert g4[1..] == [] && g4[0] == groups[4];
    GroupIdsStep(g4, ids, 20, 24);
    assert g3[1..] == g4 && g3[0] == groups[3];
    GroupIdsStep(g3, ids, 15, 20);
    assert g2[1..] == g3 && g2[0] == groups[2];
    GroupIdsStep(g2, ids, 10, 15);
    assert g1[1..] == g2 && g1[0] == groups[1];
    GroupIdsStep(g1, ids, 5, 10);
    GroupIdsStep(groups, ids, 0, 5);
    assert ids[0..] == ids;
  }

  lemma GroupsShape()
    ensures |Groups| == 5
    ensures Groups[0].activities == CulinaryActivities && Groups[1].activities == AdventureActivities
    ensures Groups[2].activities == CulturalActivities && Groups[3].activities == MindfulnessActivities
    ensures Groups[4].activities == SocialActivities
  {
  }

  lemma GroupIdsOfCatalog()
    ensures GroupIds(Groups) == CatalogIds
  {
    GroupsShape();
    CulinaryIds();
    AdventureIds();
    CulturalIds();
    MindfulnessIds();
    SocialIds();
    GroupIdsAre(Groups, CatalogIds);
  }

  lemma CatalogIdsDistinct()
    ensures Distinct(CatalogIds)
  {
  }

  /** No two loaded activities share an id. */
  lemma CatalogIdsUnique()
    ensures Distinct(IdsOf(AllActivities(Groups)))
    ensures forall i, j :: 0 <= i < j < |AllActivities(Groups)| ==> AllActivities(Groups)[i].id != AllActivities(Groups)[j].id
  {
    AllActivitiesIds(Groups);
    GroupIdsOfCatalog();
    CatalogIdsDistinct();
  }

  const LuxurySeekerIds: seq<string> := ["wine-discovery", "holistic-spa", "astronomy-night", "independent-cinema"]

  lemma LuxurySeekerTheme()
    ensures FindTheme(Themes, "luxurySeeker") == Some(Theme("luxurySeeker", "Luxury Seeker", LuxurySeekerIds, "sophisticated"))
  {
  }

  /** Which of the Luxury Seeker ids the loaded catalog knows. */
  lemma LuxurySeekerIdsLoaded()
    ensures HasId(AllActivities(Groups), "wine-discovery")
    ensures HasId(AllActivities(Groups), "holistic-spa")
    ensures HasId(AllActivities(Groups), "astronomy-night")
    ensures !HasId(AllActivities(Groups), "independent-cinema")
  {
    NoIndependentCinema();
    LuxuryIdsIn(Groups);
  }

  /** Any groups holding the first three ids at those places, and never the fourth, load that way. */
  lemma LuxuryIdsIn(groups: seq<Group>)
    requires |groups| == 5
    requires |groups[0].activities| > 2 && groups[0].activities[2].id == "wine-discovery"
    requires |groups[3].activities| > 0 && groups[3].activities[0].id == "holistic-spa"
    requires |groups[1].activities| > 3 && groups[1].activities[3].id == "astronomy-night"
    requires forall g, b :: g in groups && b in g.activities ==> b.id != "independent-cinema"
    ensures HasId(AllActivities(groups), "wine-discovery")
    ensures HasId(AllActivities(groups), "holistic-spa")
    ensures HasId(AllActivities(groups), "astronomy-night")
    ensures !HasId(AllActivities(groups), "independent-cinema")
  {
    LoadedId(groups, 0, 2, "wine-discovery");
    LoadedId(groups, 3, 0, "holistic-spa");
    LoadedId(groups, 1, 3, "astronomy-night");
    forall a | a in AllActivities(groups) ensures a.id != "independent-cinema" {
      var g, b :| g in groups && b in g.activities && a == b.(category := g.name);
    }
  }

  /** Loading keeps ids: the `i`th activity of group `k` can be found in the catalog by its id. */
  lemma LoadedId(groups: seq<Group>, k: nat, i: nat, id: string)
    requires k < |groups| && i < |groups[k].activities| && groups[k].activities[i].id == id
    ensures HasId(AllActivities(groups), id)
  {
    var g := groups[k];
    var b := g.activities[i];
    assert b in g.activities;
    assert b.(category := g.name) in AllActivities(groups);
  }

  /** A catalog that knows the first three Luxury Seeker ids but not the last resolves those three. */
  lemma LuxurySeekerKnownIds(catalog: seq<Activity>)
    requires HasId(catalog, "wine-discovery") && HasId(catalog, "holistic-spa") && HasId(catalog, "astronomy-night")
    requires !HasId(catalog, "independent-cinema")
    ensures KnownIds(catalog, LuxurySeekerIds) == LuxurySeekerIds[..3]
  {
    var ids := LuxurySeekerIds;
    assert KnownIds(catalog, ids[3..]) == [];
    assert KnownIds(catalog, ids[2..]) == ids[2..3];
    assert KnownIds(catalog, ids[1..]) == ids[1..3];
  }

  /** "independent-cinema" is not in the catalog, so the Luxury Seeker theme places three activities. */
  lemma LuxurySeekerResolvesThree()
    ensures FindTheme(Themes, "luxurySeeker").Some?
    ensures |Resolve(AllActivities(Groups), FindTheme(Themes, "luxurySeeker").value.activities)| == 3
  {
    LuxurySeekerTheme();
    LuxurySeekerIdsLoaded();
    ResolveLuxury(AllActivities(Groups));
  }

  lemma ResolveLuxury(catalog: seq<Activity>)
    requires HasId(catalog, "wine-discovery") && HasId(catalog, "holistic-spa") && HasId(catalog, "astronomy-night")
    requires !HasId(catalog, "independent-cinema")
    ensures |Resolve(catalog, LuxurySeekerIds)| == 3
  {
    LuxurySeekerKnownIds(catalog);
  }
}
