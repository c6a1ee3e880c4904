/** The configuration a first run starts from, and what its numbers imply. */
module Defaults {
  import opened Wrappers
  import opened Objects
  import opened Types
  import opened Scoring
  import opened Summary
  import opened Seqs

  function Mental(name: string, desc: string): LibraryItem {
    LibraryItem(name, Some(desc), None, None)
  }

  function Investor(name: string, resource: string, years: string): LibraryItem {
    LibraryItem(name, None, Some(resource), Some(years))
  }

  function Item(id: string, itemLabel: string, xp: int): ProtocolItem {
    ProtocolItem(id, itemLabel, Some(xp))
  }

  function SumCard(id: string, title: string, maxXP: int, items: seq<ProtocolItem>): ProtocolCard {
    ProtocolCard(id, title, maxXP, Some(Sum), None, items, None)
  }

  const DefaultLibrary := Library(
    [ Mental("First Principles Thinking", "Reduce problems to fundamental truths, build upward."),
      Mental("Second-Order Thinking", "Consider consequences beyond the immediate."),
      Mental("Inversion", "Think backward: how could this fail? Then avoid it."),
      Mental("Probabilistic Thinking", "Evaluate decisions using likelihoods, not certainties."),
      Mental("Hanlon’s Razor", "Never attribute to malice what can be explained by stupidity."),
      Mental("Pareto Principle", "80% of effects come from 20% of causes."),
      Mental("Occam’s Razor", "Prefer the simplest explanation that fits the data."),
      Mental("Compound Effect", "Small, smart choices + consistency + time = radical difference."),
      Mental("Circle of Competence", "Operate within your area of true knowledge."),
      Mental("Map ≠ Territory", "Symbols are not reality.") ],
    [ Mental("Deep Work", "Dedicate blocks of time to distraction-free cognitive work."),
      Mental("Eat That Frog", "Do the biggest, ugliest task first thing."),
      Mental("Pomodoro Technique", "25 min focus, 5 min diffuse mode."),
      Mental("2-Minute Rule", "If it takes < 2 mins, do it now."),
      Mental("Time Boxing", "Schedule every minute of your day."),
      Mental("Eisenhower Matrix", "Urgent vs Important."),
      Mental("Flow State", "Balance challenge and skill to enter the zone.") ],
    [ Investor("Stanley Druckenmiller", "The Genius of Stan Druckenmiller", "30 Years"),
      Investor("Warren Buffett", "Berkshire Shareholder Letters", "55 Years"),
      Investor("Charlie Munger", "Poor Charlie's Almanack", "Wisdom"),
      Investor("Naval Ravikant", "The Almanack of Naval Ravikant", "Modern") ],
    [ "“Discipline equals freedom.” — Jocko Willink",
      "“The impediment to action advances action.” — Marcus Aurelius",
      "“Slow is smooth, smooth is fast.” — Navy SEALs",
      "“We suffer more in imagination than in reality.” — Seneca",
      "“Amor Fati.” — Friedrich Nietzsche" ])

  const DefaultWorkouts := [
    Workout("Sunday", "Endurance/Cardio (Swim, Hike, Long Zone 2)"),
    Workout("Monday", "Lower Body Strength (Squat/Deadlift, Posterior Chain)"),
    Workout("Tuesday", "Sauna + Cold Exposure (3-5 Rounds)"),
    Workout("Wednesday", "Upper Body Strength (Push/Pull, Delts)"),
    Workout("Thursday", "Cardio Endurance (Row/Ski/Run/Bike/Ruck)"),
    Workout("Friday", "HIIT (Bike, Row, Sled, KB Swings)"),
    Workout("Saturday", "Hypertrophy (Arms, Core, Calves, Neck)") ]

  const SleepCard := SumCard("sleep", "Sleep Hygiene", 1000, [
    Item("s1", "7+ Hours Sleep", 400),
    Item("s2", "No Blue Light 1hr pre-bed", 200),
    Item("s3", "Consistent Wake Time", 200),
    Item("s4", "Mouth Taping / Nasal", 200) ])

  const NutritionCard := SumCard("nutrition", "Nutrition", 1000, [
    Item("n1", "Clean Eating (No Junk)", 300),
    Item("n2", "Hit Protein Goal", 300),
    Item("n3", "Hydration (3L+)", 200),
    Item("n4", "Supplements Taken", 200) ])

  const MovementCard := SumCard("movement", "Movement", 1000, [
    Item("m1", "Main Workout", 500),
    Item("m2", "10k Steps", 300),
    Item("m3", "Stretching/Mobility", 200) ])

  const FocusCard := SumCard("focus", "Deep Work", 1500, [
    Item("dw1", "4h Deep Work", 800),
    Item("dw2", "No Social Media", 400),
    Item("dw3", "Plan Tomorrow", 300) ])

  const MindCard := SumCard("mind", "Mindset", 1000, [
    Item("mi1", "Meditation (10m)", 300),
    Item("mi2", "Reading (30m)", 300),
    Item("mi3", "Journaling", 200),
    Item("mi4", "Gratitude", 200) ])

  const HealthSection := ProtocolSection("Health & Physiology", 3, [SleepCard, NutritionCard, MovementCard])

  const MindSection := ProtocolSection("Deep Work & Mind", 2, [FocusCard, MindCard])

  const DefaultLevels := Levels(6500, 5000, 3500)

  const DefaultPersona := PersonaConfig("Jaguar", "Warrior King", "Tree")

  const DefaultProtocols := [HealthSection, MindSection]

  /**
   * `DEFAULT_CONFIG`. The lemmas below speak of its parts: every proof that
   * mentions the whole value has to carry all of its text.
   */
  const DefaultConfig := AppConfig(DefaultLevels, 9000, Some(DefaultPersona), DefaultLibrary, DefaultWorkouts, DefaultProtocols)

  /** The sum of `xp || 0` over all items. */
  function ItemsXP(items: seq<ProtocolItem>): int {
    if items == [] then 0 else ItemsXP(items[..|items| - 1]) + ItemXP(items[|items| - 1])
  }

  /** A card whose items are all checked collects the sum of their xp. */
  lemma {:induction false} AllCheckedSum(items: seq<ProtocolItem>, checked: seq<Prop<bool>>)
    requires forall i :: 0 <= i < |items| ==> IsChecked(checked, items[i].id)
    ensures CheckedSum(items, checked) == ItemsXP(items)
  {
    if items != [] {
      var init := items[..|items| - 1];
      assert forall i :: 0 <= i < |init| ==> init[i] == items[i];
      AllCheckedSum(init, checked);
    }
  }

  /** A `sum` card whose item xp adds up exactly to its `maxXP`. */
  predicate Balanced(c: ProtocolCard) {
    c.scoringType == Some(Sum) && ItemsXP(c.items) == c.maxXP
  }

  predicate AllItemsChecked(cards: seq<ProtocolCard>, checked: seq<Prop<bool>>) {
    forall c, i :: 0 <= c < |cards| && 0 <= i < |cards[c].items| ==> IsChecked(checked, cards[c].items[i].id)
  }

  /** On balanced cards, checking every item earns every card's `maxXP`. */
  lemma {:induction false} FullCards(cards: seq<ProtocolCard>, checked: seq<Prop<bool>>)
    requires forall c :: 0 <= c < |cards| ==> Balanced(cards[c])
    requires AllItemsChecked(cards, checked)
    ensures CardsXP(cards, checked) == CardsMaxXP(cards)
  {
    if cards != [] {
      var init := cards[..|cards| - 1];
      var last := cards[|cards| - 1];
      assert forall c :: 0 <= c < |init| ==> init[c] == cards[c];
      FullCards(init, checked);
      assert forall i :: 0 <= i < |last.items| ==> IsChecked(checked, last.items[i].id) by {
        assert forall i :: 0 <= i < |last.items| ==> last.items[i] == cards[|cards| - 1].items[i];
      }
      AllCheckedSum(last.items, checked);
    }
  }

  lemma ItemsXP3(a: ProtocolItem, b: ProtocolItem, c: ProtocolItem)
    ensures ItemsXP([a, b, c]) == ItemXP(a) + ItemXP(b) + ItemXP(c)
  {
    assert [a][..0] == [];
    assert ItemsXP([a]) == ItemXP(a);
    assert [a, b][..1] == [a];
    assert ItemsXP([a, b]) == ItemXP(a) + ItemXP(b);
    assert [a, b, c][..2] == [a, b];
  }

  lemma ItemsXP4(a: ProtocolItem, b: ProtocolItem, c: ProtocolItem, d: ProtocolItem)
    ensures ItemsXP([a, b, c, d]) == ItemXP(a) + ItemXP(b) + ItemXP(c) + ItemXP(d)
  {
    assert [a, b, c, d][..3] == [a, b, c];
    ItemsXP3(a, b, c);
  }

  lemma CardsMaxXP2(a: ProtocolCard, b: ProtocolCard)
    ensures CardsMaxXP([a, b]) == a.maxXP + b.maxXP
  {
    assert [a][..0] == [];
    assert CardsMaxXP([a]) == a.maxXP;
    assert [a, b][..1] == [a];
  }

  lemma CardsMaxXP3(a: ProtocolCard, b: ProtocolCard, c: ProtocolCard)
    ensures CardsMaxXP([a, b, c]) == a.maxXP + b.maxXP + c.maxXP
  {
    assert [a, b, c][..2] == [a, b];
    CardsMaxXP2(a, b);
  }

  /** Each default card scores by sum, and its item xp adds up to exactly its `maxXP`. */
  lemma DefaultCardsBalanced()
    ensures Balanced(SleepCard) && Balanced(NutritionCard) && Balanced(MovementCard)
    ensures Balanced(FocusCard) && Balanced(MindCard)
  {
    ItemsXP4(SleepCard.items[0], SleepCard.items[1], SleepCard.items[2], SleepCard.items[3]);
    ItemsXP4(NutritionCard.items[0], NutritionCard.items[1], NutritionCard.items[2], NutritionCard.items[3]);
    ItemsXP3(MovementCard.items[0], MovementCard.items[1], MovementCard.items[2]);
    ItemsXP3(FocusCard.items[0], FocusCard.items[1], FocusCard.items[2]);
    ItemsXP4(MindCard.items[0], MindCard.items[1], MindCard.items[2], MindCard.items[3]);
  }

  lemma SectionsBalanced()
    ensures forall c :: 0 <= c < |HealthSection.cards| ==> Balanced(HealthSection.cards[c])
    ensures forall c :: 0 <= c < |MindSection.cards| ==> Balanced(MindSection.cards[c])
    ensures CardsMaxXP(HealthSection.cards) == 3000
    ensures CardsMaxXP(MindSection.cards) == 2500
  {
    DefaultCardsBalanced();
    CardsMaxXP3(SleepCard, NutritionCard, MovementCard);
    CardsMaxXP2(FocusCard, MindCard);
  }

  lemma Totals2(a: ProtocolSection, b: ProtocolSection, checked: seq<Prop<bool>>)
    ensures MaxTotal([a, b]) == CardsMaxXP(a.cards) + CardsMaxXP(b.cards)
    ensures TotalXP([a, b], checked) == CardsXP(a.cards, checked) + CardsXP(b.cards, checked)
  {
    assert [a][..0] == [];
    assert MaxTotal([a]) == CardsMaxXP(a.cards);
    assert TotalXP([a], checked) == CardsXP(a.cards, checked);
    assert [a, b][..1] == [a];
  }

  /** The default cards are worth 5500 XP together, below the 6500 ELITE threshold. */
  lemma DefaultMaxTotal()
    ensures MaxTotal(DefaultProtocols) == 5500
    ensures MaxTotal(DefaultProtocols) < DefaultLevels.elite
  {
    SectionsBalanced();
    Totals2(HealthSection, MindSection, []);
  }

  /** The default thresholds are ordered. */
  lemma DefaultLevelsOrdered()
    ensures Ordered(DefaultLevels)
    ensures DefaultLevels.survival == 3500 && DefaultLevels.strong == 5000 && DefaultLevels.elite == 6500
  {
  }

  /** The whole configuration is assembled from the parts the other lemmas speak of. */
  lemma DefaultConfigParts()
    ensures DefaultConfig.levels == DefaultLevels && DefaultConfig.maxXP == 9000
    ensures DefaultConfig.persona == Some(DefaultPersona) && DefaultPersona.anima == "Jaguar"
    ensures DefaultConfig.library == DefaultLibrary && DefaultConfig.workouts == DefaultWorkouts
    ensures DefaultConfig.protocols == DefaultProtocols
  {
  }

  /** Seven workouts indexed by weekday, Sunday first. */
  lemma DefaultWeek()
    ensures |DefaultWorkouts| == 7
    ensures DefaultWorkouts[0].t == "Sunday" && DefaultWorkouts[6].t == "Saturday"
  {
  }

  lemma DefaultLibraryShape()
    ensures |DefaultLibrary.mentalModels| == 10 && |DefaultLibrary.productivity| == 7
    ensures |DefaultLibrary.investors| == 4 && |DefaultLibrary.quotes| == 5
  {
  }

  /** With the default protocols no day reaches ELITE, whatever is checked. */
  lemma DefaultNeverElite(checked: seq<Prop<bool>>)
    ensures TotalXP(DefaultProtocols, checked) <= 5500
    ensures Classify(TotalXP(DefaultProtocols, checked), DefaultLevels) != Elite
  {
    DefaultMaxTotal();
    TotalXPBound(DefaultProtocols, checked);
  }

  /** Checking every default item earns 5500 XP, which is STRONG. */
  lemma DefaultFullDay(checked: seq<Prop<bool>>)
    requires AllItemsChecked(HealthSection.cards, checked)
    requires AllItemsChecked(MindSection.cards, checked)
    ensures TotalXP(DefaultProtocols, checked) == 5500
    ensures Classify(TotalXP(DefaultProtocols, checked), DefaultLevels) == Strong
  {
    SectionsBalanced();
    FullCards(HealthSection.cards, checked);
    FullCards(MindSection.cards, checked);
    Totals2(HealthSection, MindSection, checked);
  }

  // ----- unique ids -----

  function ItemIds(items: seq<ProtocolItem>): (r: seq<string>)
    ensures |r| == |items| && forall i :: 0 <= i < |items| ==> r[i] == items[i].id
  {
    seq(|items|, i requires 0 <= i < |items| => items[i].id)
  }

  /** A card's id followed by its items' ids. */
  function CardIds(c: ProtocolCard): seq<string> {
    [c.id] + ItemIds(c.items)
  }

  function CardsIds(cards: seq<ProtocolCard>): seq<string> {
    if cards == [] then [] else CardsIds(cards[..|cards| - 1]) + CardIds(cards[|cards| - 1])
  }

  /** Every card id and item id of the protocol tree, in order. */
  function TreeIds(sections: seq<ProtocolSection>): seq<string> {
    if sections == [] then [] else TreeIds(sections[..|sections| - 1]) + CardsIds(sections[|sections| - 1].cards)
  }

  /**
   * The default naming scheme: a card id of four or more characters, and item
   * ids made of a prefix of at most two characters and the item's 1-based position.
   */
  predicate Tagged(c: ProtocolCard, prefix: string) {
    |c.id| >= 4 && |prefix| <= 2 && |c.items| <= 9
    && forall i :: 0 <= i < |c.items| ==> c.items[i].id == prefix + [(49 + i) as char]
  }

  lemma TaggedDistinct(c: ProtocolCard, prefix: string)
    requires Tagged(c, prefix)
    ensures Distinct(CardIds(c))
  {
    var ids := CardIds(c);
    forall i, j | 0 <= i < j < |ids| ensures ids[i] != ids[j] {
      var y := ids[j];
      assert y == c.items[j - 1].id;
      if i > 0 {
        assert ids[i][|prefix|] != y[|prefix|];
      }
    }
  }

  lemma PrefixedDiffer(p1: string, x: char, p2: string, y: char)
    requires p1 != p2
    ensures p1 + [x] != p2 + [y]
  {
    if |p1| == |p2| {
      assert (p1 + [x])[..|p1|] == p1;
      assert (p2 + [y])[..|p2|] == p2;
    }
  }

  /** Cards named with different prefixes and different ids share no id. */
  lemma TaggedDisjoint(c1: ProtocolCard, p1: string, c2: ProtocolCard, p2: string)
    requires Tagged(c1, p1) && Tagged(c2, p2)
    requires p1 != p2 && c1.id != c2.id
    ensures forall x :: x in CardIds(c1) ==> x !in CardIds(c2)
  {
    var a, b := CardIds(c1), CardIds(c2);
    forall i, j | 0 <= i < |a| && 0 <= j < |b| ensures a[i] != b[j] {
      if i > 0 && j > 0 {
        PrefixedDiffer(p1, (49 + i - 1) as char, p2, (49 + j - 1) as char);
      }
    }
  }

  lemma DefaultTagged()
    ensures Tagged(SleepCard, "s") && Tagged(NutritionCard, "n") && Tagged(MovementCard, "m")
    ensures Tagged(FocusCard, "dw") && Tagged(MindCard, "mi")
  {
    forall i | 0 <= i < 4 ensures SleepCard.items[i].id == "s" + [(49 + i) as char] {
      assert i == 0 || i == 1 || i == 2 || i == 3;
    }
    forall i | 0 <= i < 4 ensures NutritionCard.items[i].id == "n" + [(49 + i) as char] {
      assert i == 0 || i == 1 || i == 2 || i == 3;
    }
    forall i | 0 <= i < 3 ensures MovementCard.items[i].id == "m" + [(49 + i) as char] {
      assert i == 0 || i == 1 || i == 2;
    }
    forall i | 0 <= i < 3 ensures FocusCard.items[i].id == "dw" + [(49 + i) as char] {
      assert i == 0 || i == 1 || i == 2;
    }
    forall i | 0 <= i < 4 ensures MindCard.items[i].id == "mi" + [(49 + i) as char] {
      assert i == 0 || i == 1 || i == 2 || i == 3;
    }
  }

  lemma DefaultTreeIds()
    ensures TreeIds(DefaultProtocols)
      == CardIds(SleepCard) + CardIds(NutritionCard) + CardIds(MovementCard) + CardIds(FocusCard) + CardIds(MindCard)
  {
    var h := [SleepCard, NutritionCard, MovementCard];
    assert h[..2] == [SleepCard, NutritionCard];
    assert [SleepCard, NutritionCard][..1] == [SleepCard];
    assert [SleepCard][..0] == [];
    assert CardsIds([SleepCard]) == CardIds(SleepCard);
    assert CardsIds([SleepCard, NutritionCard]) == CardIds(SleepCard) + CardIds(NutritionCard);
    assert [FocusCard, MindCard][..1] == [FocusCard];
    assert [FocusCard][..0] == [];
    assert CardsIds([FocusCard]) == CardIds(FocusCard);
    assert [HealthSection, MindSection][..1] == [HealthSection];
    assert [HealthSection][..0] == [];
    assert TreeIds([HealthSection]) == CardsIds(h);
  }

  lemma InConcat(x: string, a: seq<string>, b: seq<string>)
    ensures x in a + b <==> x in a || x in b
  {
  }

  /** No two cards, no two items and no card and item of the default tree share an id. */
  lemma DefaultIdsUnique()
    ensures Distinct(TreeIds(DefaultProtocols))
  {
    DefaultTagged();
    DefaultTreeIds();
    var a, b, c, d, e := CardIds(SleepCard), CardIds(NutritionCard), CardIds(MovementCard), CardIds(FocusCard), CardIds(MindCard);
    TaggedDistinct(SleepCard, "s");
    TaggedDistinct(NutritionCard, "n");
    TaggedDistinct(MovementCard, "m");
    TaggedDistinct(FocusCard, "dw");
    TaggedDistinct(MindCard, "mi");
    TaggedDisjoint(SleepCard, "s", NutritionCard, "n");
    TaggedDisjoint(SleepCard, "s", MovementCard, "m");
    TaggedDisjoint(SleepCard, "s", FocusCard, "dw");
    TaggedDisjoint(SleepCard, "s", MindCard, "mi");
    TaggedDisjoint(NutritionCard, "n", MovementCard, "m");
    TaggedDisjoint(NutritionCard, "n", FocusCard, "dw");
    TaggedDisjoint(NutritionCard, "n", MindCard, "mi");
    TaggedDisjoint(MovementCard, "m", FocusCard, "dw");
    TaggedDisjoint(MovementCard, "m", MindCard, "mi");
    TaggedDisjoint(FocusCard, "dw", MindCard, "mi");
    DistinctConcat(a, b);
    forall x | x in a + b ensures x !in c { InConcat(x, a, b); }
    DistinctConcat(a + b, c);
    forall x | x in a + b + c ensures x !in d { InConcat(x, a + b, c); InConcat(x, a, b); }
    DistinctConcat(a + b + c, d);
    forall x | x in a + b + c + d ensures x !in e { InConcat(x, a + b + c, d); InConcat(x, a + b, c); InConcat(x, a, b); }
    DistinctConcat(a + b + c + d, e);
  }
}
