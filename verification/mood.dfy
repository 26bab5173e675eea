/**
 * The pure parts of the mood-tracking service: the mood definitions, time slots, the
 * context and mood filters, the vibe-pattern counters, insight recommendations and the
 * group compatibility score. "Now" (the season, the hour) is a parameter.
 */
module Mood {
  import opened Wrappers
  import opened Seqs
  import opened Activities

  /** A mood definition: display name, suggested activity ids, opposite and complementary moods. */
  datatype MoodDef = MoodDef(key: string, name: string, suggested: seq<string>, opposites: seq<string>, complementary: seq<string>)

  const MoodDefinitions: seq<MoodDef> := [
    MoodDef("energetic", "Energetic",
      ["dance-workshop", "mountain-expedition", "urban-cycling", "street-food-adventure"],
      ["relaxed", "tired"], ["adventurous", "social"]),
    MoodDef("relaxed", "Relaxed",
      ["mindfulness-retreat", "holistic-spa", "botanical-picnic", "wine-discovery"],
      ["energetic", "stressed"], ["mindful", "content"]),
    MoodDef("creative", "Creative",
      ["cultural-workshop", "gallery-exploration", "collaborative-cooking", "photography-walk"],
      ["routine", "analytical"], ["curious", "expressive"]),
    MoodDef("social", "Social",
      ["networking-meetup", "farmers-market", "trivia-championship", "dance-workshop"],
      ["introverted", "solitary"], ["energetic", "happy"]),
    MoodDef("contemplative", "Contemplative",
      ["literary-journey", "gallery-exploration", "mindfulness-retreat", "astronomy-night"],
      ["impulsive", "scattered"], ["peaceful", "curious"]),
    MoodDef("adventurous", "Adventurous",
      ["photography-expedition", "street-food-adventure", "urban-cycling", "mountain-expedition"],
      ["cautious", "routine"], ["energetic", "curious"]),
    MoodDef("romantic", "Romantic",
      ["wine-discovery", "live-performance", "botanical-picnic", "cinema-experience"],
      ["platonic", "solitary"], ["relaxed", "happy"]),
    MoodDef("curious", "Curious",
      ["gallery-exploration", "cultural-workshop", "photography-walk", "farmers-market"],
      ["disinterested", "familiar"], ["adventurous", "creative"]),
    MoodDef("nostalgic", "Nostalgic",
      ["cinema-experience", "gourmet-brunch", "literary-journey", "live-performance"],
      ["futuristic", "modern"], ["contemplative", "romantic"]),
    MoodDef("spontaneous", "Spontaneous",
      ["street-food-adventure", "photography-walk", "farmers-market", "urban-cycling"],
      ["planned", "structured"], ["adventurous", "energetic"])
  ]

  /** `moodDefinitions[key]`. */
  function FindMood(defs: seq<MoodDef>, key: string): (r: Option<MoodDef>)
    ensures r.Some? ==> r.value in defs && r.value.key == key
    ensures r.None? ==> forall m :: m in defs ==> m.key != key
  {
    if defs == [] then None
    else if defs[0].key == key then Some(defs[0])
    else FindMood(defs[1..], key)
  }

  function Lookup(key: string): Option<MoodDef> {
    FindMood(MoodDefinitions, key)
  }

  /** Every mood suggests four activities and names two opposite and two complementary moods. */
  lemma MoodDefinitionsShape()
    ensures forall m :: m in MoodDefinitions ==> |m.suggested| == 4 && |m.opposites| == 2 && |m.complementary| == 2
  {
  }

  // ---- Time slots ----

  datatype Slot = Morning | Afternoon | Evening | Night

  function SlotRank(s: Slot): nat {
    match s
    case Morning => 0
    case Afternoon => 1
    case Evening => 2
    case Night => 3
  }

  /** `getTimeSlot(hour)`. */
  function TimeSlot(hour: int): (r: Slot)
    ensures r == Morning <==> hour < 12
    ensures r == Afternoon <==> 12 <= hour < 17
    ensures r == Evening <==> 17 <= hour < 21
    ensures r == Night <==> 21 <= hour
  {
    if hour < 12 then Morning
    else if hour < 17 then Afternoon
    else if hour < 21 then Evening
    else Night
  }

  /** A later hour never falls in an earlier slot. */
  lemma TimeSlotMonotone(h1: int, h2: int)
    requires h1 <= h2
    ensures SlotRank(TimeSlot(h1)) <= SlotRank(TimeSlot(h2))
  {
  }

  // ---- Context filter ----

  /** `s.includes(sub)`. */
  predicate Contains(s: string, sub: string) {
    sub <= s || (s != [] && Contains(s[1..], sub))
  }

  /** The context of a mood entry: time of day, weather and energy, as the strings the service uses. */
  datatype Context = Context(timeOfDay: string, weather: string, energy: string)

  /** The reasons `filterActivitiesByContext` drops an activity id. */
  predicate Unsuitable(id: string, c: Context) {
    || (c.timeOfDay == "evening" && Contains(id, "sunrise"))
    || (c.timeOfDay == "morning" && Contains(id, "night"))
    || (c.weather == "rainy" && (Contains(id, "expedition") || Contains(id, "cycling")))
    || (c.energy == "low" && Contains(id, "expedition"))
    || (c.energy == "high" && Contains(id, "spa"))
  }

  /** `filterActivitiesByContext(activities, context)`: the suitable ids, in order. */
  function FilterByContext(ids: seq<string>, c: Context): (r: seq<string>)
    ensures SubsequenceOf(r, ids)
    ensures forall id :: id in r <==> id in ids && !Unsuitable(id, c)
    ensures forall id :: multiset(r)[id] == if Unsuitable(id, c) then 0 else multiset(ids)[id]
  {
    Filter(ids, (id: string) => !Unsuitable(id, c))
  }

  /** Filtering is idempotent: the kept ids all pass a second time. */
  lemma FilterByContextIdempotent(ids: seq<string>, c: Context)
    ensures FilterByContext(FilterByContext(ids, c), c) == FilterByContext(ids, c)
  {
    FilterKeepsAll(FilterByContext(ids, c), (id: string) => !Unsuitable(id, c));
  }

  // ---- Mood filter ----

  /** One selected mood matches an activity. */
  predicate MoodMatches(mood: string, a: Activity) {
    match Lookup(mood)
    case None => false
    case Some(def) =>
      || a.id in def.suggested
      || (a.vibe != "" && a.vibe in def.complementary)
      || (mood == "energetic" && a.energyLevel == "high")
      || (mood == "relaxed" && a.energyLevel == "low")
      || (mood == "creative" && a.category == "Cultural")
      || (mood == "social" && Contains(a.description, "group"))
  }

  /**
   * `filterActivitiesByMood(activities, selectedMoods)`: everything for an absent or
   * empty selection, otherwise the activities some selected mood matches, in order.
   */
  function FilterByMood(acts: seq<Activity>, selected: Option<seq<string>>): (r: seq<Activity>)
    ensures selected.None? || selected.value == [] ==> r == acts
    ensures SubsequenceOf(r, acts)
    ensures selected.Some? && selected.value != [] ==>
      forall a :: a in r <==> a in acts && exists m :: m in selected.value && MoodMatches(m, a)
  {
    SubsequenceRefl(acts);
    match selected
    case None => acts
    case Some(moods) =>
      if moods == [] then acts
      else Filter(acts, (a: Activity) => exists m :: m in moods && MoodMatches(m, a))
  }

  /** Moods missing from the definitions match nothing, so selecting only such moods keeps nothing. */
  lemma UnknownMoodsMatchNothing(acts: seq<Activity>, moods: seq<string>)
    requires moods != []
    requires forall m :: m in moods ==> Lookup(m).None?
    ensures FilterByMood(acts, Some(moods)) == []
  {
    var r := FilterByMood(acts, Some(moods));
    assert forall a :: a !in r;
  }

  // ---- Vibe patterns ----

  /** What the service learns about one mood: how often, and in which time slot, season and company. */
  datatype Pattern = Pattern(frequency: nat, timePatterns: map<string, nat>, seasonalPatterns: map<string, nat>, socialPatterns: map<string, nat>)

  const NewPattern: Pattern := Pattern(0, map[], map[], map[])

  /** `m[k] || 0`. */
  function Tally(m: map<string, nat>, k: string): nat {
    if k in m then m[k] else 0
  }

  /** `m[k] = (m[k] || 0) + 1`. */
  function Bump(m: map<string, nat>, k: string): (r: map<string, nat>)
    ensures r.Keys == m.Keys + {k}
    ensures Tally(r, k) == Tally(m, k) + 1
    ensures forall j :: j != k ==> Tally(r, j) == Tally(m, j)
  {
    m[k := Tally(m, k) + 1]
  }

  function PatternOf(patterns: map<string, Pattern>, mood: string): Pattern {
    if mood in patterns then patterns[mood] else NewPattern
  }

  /** One listed mood: the frequency and the counters of this time slot, season and company go up by one. */
  function Learn(p: Pattern, timeOfDay: string, season: string, social: string): (r: Pattern)
    ensures r.frequency == p.frequency + 1
    ensures Tally(r.timePatterns, timeOfDay) == Tally(p.timePatterns, timeOfDay) + 1
    ensures Tally(r.seasonalPatterns, season) == Tally(p.seasonalPatterns, season) + 1
    ensures Tally(r.socialPatterns, social) == Tally(p.socialPatterns, social) + 1
  {
    Pattern(p.frequency + 1, Bump(p.timePatterns, timeOfDay), Bump(p.seasonalPatterns, season), Bump(p.socialPatterns, social))
  }

  /**
   * `updateVibePatterns(entry)`: for every listed mood (a repeated mood counts each time)
   * the pattern's frequency and its time, season and social counters go up by one.
   */
  function UpdateVibePatterns(patterns: map<string, Pattern>, moods: seq<string>, timeOfDay: string, season: string, social: string): (r: map<string, Pattern>)
    ensures r.Keys == patterns.Keys + (set m | m in moods)
    ensures forall m :: m !in moods ==> PatternOf(r, m) == PatternOf(patterns, m)
    ensures forall m :: PatternOf(r, m).frequency == PatternOf(patterns, m).frequency + multiset(moods)[m]
    decreases |moods|
  {
    if moods == [] then patterns
    else
      var m, rest := moods[0], moods[1..];
      assert moods == [m] + rest;
      var learned := Learn(PatternOf(patterns, m), timeOfDay, season, social);
      var r := UpdateVibePatterns(patterns[m := learned], rest, timeOfDay, season, social);
      VibeStep(patterns, m, learned, rest, r);
      r
  }

  /** One listed mood followed by the rest: the two updates compose. */
  lemma VibeStep(patterns: map<string, Pattern>, m: string, learned: Pattern, rest: seq<string>, r: map<string, Pattern>)
    requires learned.frequency == PatternOf(patterns, m).frequency + 1
    requires r.Keys == patterns[m := learned].Keys + (set x | x in rest)
    requires forall x :: x !in rest ==> PatternOf(r, x) == PatternOf(patterns[m := learned], x)
    requires forall x :: PatternOf(r, x).frequency == PatternOf(patterns[m := learned], x).frequency + multiset(rest)[x]
    ensures r.Keys == patterns.Keys + (set x | x in [m] + rest)
    ensures forall x :: x !in [m] + rest ==> PatternOf(r, x) == PatternOf(patterns, x)
    ensures forall x :: PatternOf(r, x).frequency == PatternOf(patterns, x).frequency + multiset([m] + rest)[x]
  {
    assert (set x | x in [m] + rest) == {m} + (set x | x in rest);
    forall x ensures PatternOf(r, x).frequency == PatternOf(patterns, x).frequency + multiset([m] + rest)[x] {
      assert multiset([m] + rest) == multiset{m} + multiset(rest);
    }
  }

  /** The time-of-day counter of a mood grows by the number of times the mood is listed. */
  lemma {:induction false} TimeCounterGrows(patterns: map<string, Pattern>, moods: seq<string>, timeOfDay: string, season: string, social: string, m: string)
    ensures Tally(PatternOf(UpdateVibePatterns(patterns, moods, timeOfDay, season, social), m).timePatterns, timeOfDay)
      == Tally(PatternOf(patterns, m).timePatterns, timeOfDay) + multiset(moods)[m]
    decreases |moods|
  {
    if moods != [] {
      var x := moods[0];
      var next := patterns[x := Learn(PatternOf(patterns, x), timeOfDay, season, social)];
      assert moods == [x] + moods[1..];
      TimeCounterGrows(next, moods[1..], timeOfDay, season, social, m);
      assert PatternOf(next, m) == if m == x then Learn(PatternOf(patterns, x), timeOfDay, season, social) else PatternOf(patterns, m);
    }
  }

  // ---- Insight recommendations ----

  datatype Priority = High | Medium

  /** An insight: the mood it is about (by display name), the suggested ids, its priority. */
  datatype Insight = Insight(moodName: string, activities: seq<string>, priority: Priority)

  /**
   * `generateInsightRecommendations(dominantMoods)` with the dominant moods given by key,
   * most frequent first: for a known first mood, a high-priority insight with its first
   * three suggestions, then, when its first opposite is a known mood, a medium-priority
   * one with that mood's first two.
   */
  function InsightRecommendations(dominant: seq<string>): (r: seq<Insight>)
    ensures dominant == [] ==> r == []
    ensures r != [] <==> dominant != [] && Lookup(dominant[0]).Some?
    ensures |r| <= 2
    ensures r != [] ==>
      var def := Lookup(dominant[0]).value;
      r[0] == Insight(def.name, Take(def.suggested, 3), High) && |r[0].activities| <= 3
    ensures |r| == 2 <==>
      dominant != [] && Lookup(dominant[0]).Some? && Lookup(dominant[0]).value.opposites != []
      && Lookup(Lookup(dominant[0]).value.opposites[0]).Some?
    ensures |r| == 2 ==>
      var opp := Lookup(Lookup(dominant[0]).value.opposites[0]).value;
      r[1] == Insight(opp.name, Take(opp.suggested, 2), Medium) && |r[1].activities| <= 2
  {
    if dominant == [] then []
    else
      match Lookup(dominant[0])
      case None => []
      case Some(def) =>
        var first := Insight(def.name, Take(def.suggested, 3), High);
        if def.opposites == [] then [first]
        else
          match Lookup(def.opposites[0])
          case None => [first]
          case Some(opp) => [first, Insight(opp.name, Take(opp.suggested, 2), Medium)]
  }

  /** The keys of the mood definitions, in order. */
  const MoodKeys: seq<string> := ["energetic", "relaxed", "creative", "social", "contemplative",
    "adventurous", "romantic", "curious", "nostalgic", "spontaneous"]

  /** The first opposite of each mood definition, in order. */
  const FirstOpposites: seq<string> := ["relaxed", "energetic", "routine", "introverted", "impulsive",
    "cautious", "platonic", "disinterested", "futuristic", "planned"]

  /** The definitions carry the keys and first opposites listed above. */
  lemma MoodTable()
    ensures |MoodDefinitions| == |MoodKeys| == |FirstOpposites| == 10
    ensures forall i :: 0 <= i < 10 ==>
      MoodDefinitions[i].key == MoodKeys[i] && MoodDefinitions[i].opposites != []
      && MoodDefinitions[i].opposites[0] == FirstOpposites[i]
  {
  }

  /** Looking up a key in a table whose keys are `keys` finds it exactly when it is one of them, at its first position. */
  lemma {:induction false} FindByKey(defs: seq<MoodDef>, keys: seq<string>, k: string) returns (i: nat)
    requires |defs| == |keys|
    requires forall j :: 0 <= j < |defs| ==> defs[j].key == keys[j]
    ensures FindMood(defs, k).Some? <==> k in keys
    ensures FindMood(defs, k).Some? ==> i < |defs| && FindMood(defs, k) == Some(defs[i]) && keys[i] == k
  {
    i := 0;
    if defs != [] && defs[0].key != k {
      assert keys == [keys[0]] + keys[1..];
      var t := FindByKey(defs[1..], keys[1..], k);
      i := t + 1;
    }
  }

  /** A mood is defined exactly when it is one of the ten keys. */
  lemma LookupKeys(k: string)
    ensures Lookup(k).Some? <==> k in MoodKeys
  {
    MoodTable();
    var _ := FindByKey(MoodDefinitions, MoodKeys, k);
  }

  /** Of the first opposites, only those of the first two moods are defined moods. */
  lemma FirstOppositesDefined(i: nat)
    requires i < |FirstOpposites|
    ensures FirstOpposites[i] in MoodKeys <==> i < 2
  {
    if i < 5 {
      assert i == 0 || i == 1 || i == 2 || i == 3 || i == 4;
    } else {
      assert i == 5 || i == 6 || i == 7 || i == 8 || i == 9;
    }
  }

  /** The keys are pairwise distinct. */
  lemma MoodKeysDistinct()
    ensures Distinct(MoodKeys)
  {
  }

  /**
   * A balance (medium-priority) insight is offered exactly when the dominant mood is
   * energetic or relaxed: every other mood's first opposite has no definition.
   */
  lemma BalanceOnlyForEnergeticOrRelaxed(dominant: seq<string>)
    ensures |InsightRecommendations(dominant)| == 2 <==>
      dominant != [] && (dominant[0] == "energetic" || dominant[0] == "relaxed")
  {
    if dominant != [] {
      var k := dominant[0];
      MoodTable();
      var i := FindByKey(MoodDefinitions, MoodKeys, k);
      if Lookup(k).Some? {
        var opp := FirstOpposites[i];
        assert Lookup(k).value.opposites[0] == opp;
        LookupKeys(opp);
        FirstOppositesDefined(i);
        MoodKeysDistinct();
        assert MoodKeys[0] == "energetic" && MoodKeys[1] == "relaxed";
      } else {
        assert "energetic" in MoodKeys && "relaxed" in MoodKeys;
      }
    }
  }

  // ---- Group compatibility ----

  datatype Compatibility = Compatibility(
    score: int,
    shared: seq<string>,
    conflicting: seq<string>,
    recommended: seq<string>,
    compromise: seq<string>)

  const NeutralActivities: seq<string> := ["farmers-market", "gourmet-brunch", "gallery-exploration"]
  const MaxShared: nat := 5

  /** `Math.max(lo, Math.min(hi, x))`. */
  function Clamp(x: int, lo: int, hi: int): (r: int)
    requires lo <= hi
    ensures lo <= r <= hi
    ensures lo <= x <= hi ==> r == x
    ensures x < lo ==> r == lo
    ensures x > hi ==> r == hi
  {
    if x < lo then lo else if x > hi then hi else x
  }

  /** The friend's moods that a user mood names as opposites (none for an unknown mood). */
  function ConflictsOf(mood: string, friend: seq<string>): seq<string> {
    match Lookup(mood)
    case None => []
    case Some(def) => Filter(friend, (f: string) => f in def.opposites)
  }

  /** The conflicts of every user mood, concatenated in user order. */
  function AllConflicts(user: seq<string>, friend: seq<string>): (r: seq<string>)
    ensures forall f :: f in r ==> f in friend
    ensures r == [] <==> forall u :: u in user ==> ConflictsOf(u, friend) == []
  {
    if user == [] then []
    else
      assert forall u :: u in user <==> u == user[0] || u in user[1..];
      ConflictsOf(user[0], friend) + AllConflicts(user[1..], friend)
  }

  /** A user mood some complementary mood of which the friend has. */
  predicate Complements(mood: string, friend: seq<string>) {
    match Lookup(mood)
    case None => false
    case Some(def) => exists c :: c in def.complementary && c in friend
  }

  /** The suggested ids of the given moods, concatenated (an unknown mood adds none). */
  function SuggestionsOf(moods: seq<string>): (r: seq<string>)
    ensures forall x :: x in r <==> exists m :: m in moods && Lookup(m).Some? && x in Lookup(m).value.suggested
  {
    if moods == [] then []
    else
      assert forall m :: m in moods <==> m == moods[0] || m in moods[1..];
      (match Lookup(moods[0]) case None => [] case Some(def) => def.suggested) + SuggestionsOf(moods[1..])
  }

  /** The score before clamping: 50, plus 20 per shared mood, less 10 per conflict, plus 15 per complementing mood. */
  function RawScore(shared: nat, conflicts: nat, complementing: nat): int {
    50 + 20 * shared - 10 * conflicts + 15 * complementing
  }

  /** `calculateGroupMoodCompatibility(userMoods, friendMoods)`. */
  function GroupCompatibility(user: seq<string>, friend: seq<string>): (r: Compatibility)
    ensures r.shared == Filter(user, (m: string) => m in friend)
    ensures r.conflicting == AllConflicts(user, friend)
    ensures 0 <= r.score <= 100
    ensures r.score == Clamp(RawScore(|r.shared|, |r.conflicting|, |Filter(user, (m: string) => Complements(m, friend))|), 0, 100)
    ensures Distinct(r.recommended) && |r.recommended| <= MaxShared
    ensures r.recommended <= Dedup(SuggestionsOf(r.shared))
    ensures |r.recommended| == if |Dedup(SuggestionsOf(r.shared))| < MaxShared then |Dedup(SuggestionsOf(r.shared))| else MaxShared
    ensures forall m, x :: m in r.shared && Lookup(m).Some? && x in Lookup(m).value.suggested ==>
      x in r.recommended || |r.recommended| == MaxShared
    ensures r.shared == [] ==> r.recommended == []
    ensures forall x :: x in r.recommended ==>
      exists m :: m in user && m in friend && Lookup(m).Some? && x in Lookup(m).value.suggested
    ensures r.compromise == if r.conflicting != [] && r.shared == [] then NeutralActivities else []
  {
    var shared := Filter(user, (m: string) => m in friend);
    var conflicting := AllConflicts(user, friend);
    var complementing := Filter(user, (m: string) => Complements(m, friend));
    var recommended := if shared != [] then Take(Dedup(SuggestionsOf(shared)), MaxShared) else [];
    var compromise := if conflicting != [] && shared == [] then NeutralActivities else [];
    Compatibility(Clamp(RawScore(|shared|, |conflicting|, |complementing|), 0, 100), shared, conflicting, recommended, compromise)
  }

  /** The user mood `u` names some mood of the friend as an opposite. */
  predicate Opposes(u: string, friend: seq<string>) {
    Lookup(u).Some? && exists f :: f in friend && f in Lookup(u).value.opposites
  }

  lemma ConflictsOfOpposes(u: string, friend: seq<string>)
    ensures ConflictsOf(u, friend) != [] <==> Opposes(u, friend)
  {
    if Lookup(u).Some? {
      var def := Lookup(u).value;
      var c := Filter(friend, (f: string) => f in def.opposites);
      if c != [] {
        assert c[0] in c;
      }
    }
  }

  /**
   * Compromise activities are offered exactly when the two share no mood and some
   * user mood names one of the friend's moods as an opposite.
   */
  lemma CompromiseIffOpposedWithoutShared(user: seq<string>, friend: seq<string>)
    ensures GroupCompatibility(user, friend).compromise != [] <==>
      (forall u :: u in user ==> u !in friend) && exists u :: u in user && Opposes(u, friend)
  {
    SomeConflictIffOpposed(user, friend);
    var shared := Filter(user, (m: string) => m in friend);
    if shared != [] {
      assert shared[0] in shared;
    }
  }

  /** Some conflict is found exactly when some user mood opposes one of the friend's. */
  lemma SomeConflictIffOpposed(user: seq<string>, friend: seq<string>)
    ensures AllConflicts(user, friend) != [] <==> exists u :: u in user && Opposes(u, friend)
  {
    forall u ensures ConflictsOf(u, friend) != [] <==> Opposes(u, friend) {
      ConflictsOfOpposes(u, friend);
    }
  }

  /** Against a friend with no moods, everyone scores the neutral 50 with nothing recommended. */
  lemma NoFriendMoodsIsNeutral(user: seq<string>)
    ensures GroupCompatibility(user, []) == Compatibility(50, [], [], [], [])
  {
    var c := GroupCompatibility(user, []);
    forall u ensures ConflictsOf(u, []) == [] {
      ConflictsOfOpposes(u, []);
    }
  }

  /** Without conflicts the score is at least the neutral 50; without shared or complementing moods, at most 50. */
  lemma ScoreAroundNeutral(user: seq<string>, friend: seq<string>)
    ensures var c := GroupCompatibility(user, friend);
      && (c.conflicting == [] ==> c.score >= 50)
      && (c.shared == [] && (forall u :: u in user ==> !Complements(u, friend)) ==> c.score <= 50)
  {
    var complementing := Filter(user, (m: string) => Complements(m, friend));
    if forall u :: u in user ==> !Complements(u, friend) {
      assert forall m :: m !in complementing;
    }
  }

  /**
   * An energetic user and a relaxed friend share nothing and conflict once (relaxed is
   * an opposite of energetic), so they score 40 and get the three neutral activities.
   */
  lemma OppositesCompromise()
    ensures var c := GroupCompatibility(["energetic"], ["relaxed"]);
      c.score == 40 && c.shared == [] && c.conflicting == ["relaxed"] && c.compromise == NeutralActivities
  {
    var energetic := MoodDefinitions[0];
    assert Lookup("energetic") == Some(energetic);
    assert ConflictsOf("energetic", ["relaxed"]) == ["relaxed"];
    assert AllConflicts(["energetic"], ["relaxed"]) == ["relaxed"];
    assert !Complements("energetic", ["relaxed"]);
    assert Filter(["energetic"], (m: string) => m in ["relaxed"]) == [];
    assert Filter(["energetic"], (m: string) => Complements(m, ["relaxed"])) == [];
  }
}
