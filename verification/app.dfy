/**
 * The app shell: the state it keeps, what start-up reads from the store, the
 * day record's load, toggle and save, import, the configuration update and the
 * day's XP total.
 */
module AppShell {
  import opened Wrappers
  import opened Objects
  import opened JsonFormat
  import opened Types
  import opened Codec
  import opened Text
  import opened Scoring
  import opened Store
  import Defaults

  // ----- the checkbox toggle -----

  /** `handleToggleItem`: a checked id is deleted, any other id is set to `true`. */
  function Toggle(checked: seq<Prop<bool>>, id: string): (r: seq<Prop<bool>>)
    ensures IsChecked(checked, id) ==> Get(r, id).None?
    ensures !IsChecked(checked, id) ==> Get(r, id) == Some(true)
    ensures IsChecked(r, id) <==> !IsChecked(checked, id)
    ensures forall k :: k != id ==> Get(r, k) == Get(checked, k)
    ensures UniqueKeys(checked) ==> UniqueKeys(r)
  {
    if IsChecked(checked, id) then Delete(checked, id) else Put(checked, id, true)
  }

  /** Toggling twice answers every read as before, unless the id was stored as `false`. */
  lemma ToggleTwice(checked: seq<Prop<bool>>, id: string)
    requires Get(checked, id) != Some(false)
    ensures SameProps(Toggle(Toggle(checked, id), id), checked)
  {
    var once := Toggle(checked, id);
    var twice := Toggle(once, id);
    forall k ensures Get(twice, k) == Get(checked, k) {
      if k == id && Get(checked, id).Some? {
        assert Get(checked, id).value;
      }
    }
  }

  /** A stored `false` does not come back: the first toggle checks it, the second deletes it. */
  lemma ToggleTwiceDropsFalse(checked: seq<Prop<bool>>, id: string)
    requires Get(checked, id) == Some(false)
    ensures Get(Toggle(Toggle(checked, id), id), id).None?
  {
  }

  /** Checking an unchecked item never lowers any card's XP when xp values are non-negative. */
  lemma ToggleOnRaisesXP(card: ProtocolCard, checked: seq<Prop<bool>>, id: string)
    requires NonNegativeXP(card)
    requires !IsChecked(checked, id)
    ensures CardXP(card, checked) <= CardXP(card, Toggle(checked, id))
  {
    CheckOneMore(card, checked, id);
  }

  // ----- workout of the day -----

  /** `workouts[dayIndex] || {t: "Rest", d: "Recovery"}`. */
  function WorkoutOfDay(workouts: seq<Workout>, dayIndex: int): (w: Workout)
    ensures 0 <= dayIndex < |workouts| ==> w == workouts[dayIndex]
    ensures !(0 <= dayIndex < |workouts|) ==> w == Workout("Rest", "Recovery")
  {
    if 0 <= dayIndex < |workouts| then workouts[dayIndex] else Workout("Rest", "Recovery")
  }

  /** With the default plan every weekday has a workout, Sunday first. */
  lemma DefaultWeekHasNoRest(dayIndex: int)
    requires 0 <= dayIndex < 7
    ensures WorkoutOfDay(Defaults.DefaultWorkouts, dayIndex) == Defaults.DefaultWorkouts[dayIndex]
    ensures WorkoutOfDay(Defaults.DefaultWorkouts, 0).t == "Sunday"
  {
  }

  // ----- the app -----

  class App {
    var config: AppConfig
    var date: string
    var dayData: DayData
    var history: map<string, Json>
    var apiKey: string
    var loaded: bool
    const storage: Storage
    /** `DEFAULT_CONFIG`, which start-up merges the saved configuration over. */
    const defaults: AppConfig

    /** The first render: defaults, today's empty record, nothing loaded yet. */
    constructor(storage: Storage, today: string)
      ensures this.storage == storage && defaults == Defaults.DefaultConfig
      ensures config == defaults && date == today && dayData == EmptyDay(today)
      ensures history == map[] && apiKey == "" && !loaded
    {
      this.storage := storage;
      defaults := Defaults.DefaultConfig;
      config := Defaults.DefaultConfig;
      date := today;
      dayData := EmptyDay(today);
      history := map[];
      apiKey := "";
      loaded := false;
    }

    /** The start-up effect: configuration merge, API key, history scan. */
    method LoadInitialData()
      modifies this
      ensures Saved(storage.items, ConfigKey).Some? && Parse(storage.items[ConfigKey]).Some?
        ==> config == LoadedConfig(storage.items, defaults)
      ensures !(Saved(storage.items, ConfigKey).Some? && Parse(storage.items[ConfigKey]).Some?) ==> config == old(config)
      ensures apiKey == if Saved(storage.items, ApiKeyKey).Some? then storage.items[ApiKeyKey] else old(apiKey)
      ensures IsHistoryOf(history, storage.items)
      ensures loaded
      ensures date == old(date) && dayData == old(dayData)
    {
      var savedConfig := storage.GetItem(ConfigKey);
      if savedConfig.Some? && savedConfig.value != "" {
        var parsed := Parse(savedConfig.value);
        if parsed.Some? {
          config := MergeConfig(defaults, parsed.value);
        }
      }
      var savedKey := storage.GetItem(ApiKeyKey);
      if savedKey.Some? && savedKey.value != "" {
        apiKey := savedKey.value;
      }
      history := ScanHistory(storage.items);
      loaded := true;
    }

    /** The date effect: the saved record for `date`, or the empty one. */
    method LoadDay()
      modifies this
      ensures dayData == LoadedDay(storage.items, date)
      ensures config == old(config) && date == old(date) && history == old(history) && apiKey == old(apiKey)
      ensures loaded == old(loaded)
    {
      var saved := storage.GetItem(DayKey(date));
      dayData := EmptyDay(date);
      if saved.Some? && saved.value != "" {
        var parsed := Parse(saved.value);
        if parsed.Some? {
          var d := DecodeDay(parsed.value);
          if d.Some? {
            dayData := d.value;
          }
        }
      }
    }

    method SetDate(d: string)
      modifies this
      ensures date == d && dayData == LoadedDay(storage.items, d)
      ensures config == old(config) && history == old(history) && apiKey == old(apiKey)
      ensures loaded == old(loaded)
    {
      date := d;
      LoadDay();
    }

    /** `handleSaveDay`: the store and the history index both get the record. */
    method SaveDay()
      modifies storage, this
      ensures storage.items == old(storage.items)[DayKey(date) := DayText(dayData)]
      ensures history == old(history)[date := EncodeDay(dayData)]
      ensures config == old(config) && date == old(date) && dayData == old(dayData)
      ensures apiKey == old(apiKey) && loaded == old(loaded)
    {
      storage.SetItem(DayKey(date), DayText(dayData));
      history := history[date := EncodeDay(dayData)];
    }

    method SaveApiKey(key: string)
      modifies storage, this
      ensures apiKey == key && storage.items == old(storage.items)[ApiKeyKey := key]
      ensures config == old(config) && dayData == old(dayData) && history == old(history)
      ensures date == old(date) && loaded == old(loaded)
    {
      apiKey := key;
      storage.SetItem(ApiKeyKey, key);
    }

    /**
     * `handleImportData`: `ok` is false when the text does not parse or is
     * `null` (the call throws before any write); otherwise every key is written.
     */
    method ImportData(text: string) returns (ok: bool)
      modifies storage
      ensures ok <==> ImportWrites(text).Some?
      ensures ok ==> storage.items == old(storage.items) + ImportWrites(text).value
      ensures !ok ==> storage.items == old(storage.items)
    {
      var parsed := Parse(text);
      if parsed.None? {
        return false;
      }
      var entries := ImportEntries(parsed.value);
      if entries.None? {
        return false;
      }
      WriteAll(storage, entries.value);
      return true;
    }

    /** `handleUpdateConfig`: the new configuration is shown and stored. */
    method UpdateConfig(newConfig: AppConfig)
      modifies storage, this
      ensures config == newConfig && storage.items == old(storage.items)[ConfigKey := ConfigText(newConfig)]
      ensures dayData == old(dayData) && date == old(date) && history == old(history)
      ensures apiKey == old(apiKey) && loaded == old(loaded)
    {
      config := newConfig;
      storage.SetItem(ConfigKey, ConfigText(newConfig));
    }

    method ToggleItem(itemId: string)
      modifies this
      ensures dayData == old(dayData).(checkedItems := Toggle(old(dayData).checkedItems, itemId))
      ensures config == old(config) && date == old(date) && history == old(history)
      ensures apiKey == old(apiKey) && loaded == old(loaded)
    {
      dayData := dayData.(checkedItems := Toggle(dayData.checkedItems, itemId));
    }

    /** The journal's `onChange`. */
    method SetNote(note: string)
      modifies this
      ensures dayData == old(dayData).(note := note)
      ensures config == old(config) && date == old(date) && history == old(history)
      ensures apiKey == old(apiKey) && loaded == old(loaded)
    {
      dayData := dayData.(note := note);
    }

    /** `calculateTotalXP`, with the card formula written out inline as the app does. */
    method CalculateTotalXP() returns (total: int)
      ensures total == TotalXP(config.protocols, dayData.checkedItems)
    {
      var checked := dayData.checkedItems;
      var sections := config.protocols;
      total := 0;
      var s := 0;
      while s < |sections|
        invariant 0 <= s <= |sections|
        invariant total == TotalXP(sections[..s], checked)
      {
        assert sections[..s + 1][..s] == sections[..s];
        total := AddSectionXP(total, sections[s].cards, checked);
        s := s + 1;
      }
      assert sections[..s] == sections;
    }

    /** The inner `forEach` over one section's cards, adding into `total`. */
    static method AddSectionXP(total: int, cards: seq<ProtocolCard>, checked: seq<Prop<bool>>) returns (newTotal: int)
      ensures newTotal == total + CardsXP(cards, checked)
    {
      newTotal := total;
      var c := 0;
      while c < |cards|
        invariant 0 <= c <= |cards|
        invariant newTotal == total + CardsXP(cards[..c], checked)
      {
        assert cards[..c + 1][..c] == cards[..c];
        var cardXP := InlineCardXP(cards[c], checked);
        newTotal := newTotal + Min(cardXP, cards[c].maxXP);
        c := c + 1;
      }
      assert cards[..c] == cards;
    }

    /** The body of the inner `forEach`, before the cap. */
    static method InlineCardXP(card: ProtocolCard, checked: seq<Prop<bool>>) returns (cardXP: int)
      ensures Min(cardXP, card.maxXP) == CardXP(card, checked)
    {
      cardXP := 0;
      var checkedCount := CheckedCount(card.items, checked);
      if card.scoringType == Some(CountMultiplier) {
        if checkedCount == |card.items| {
          cardXP := card.maxXP;
        } else {
          cardXP := checkedCount * card.perItemXP.GetOr(0);
        }
      } else {
        var k := 0;
        while k < |card.items|
          invariant 0 <= k <= |card.items|
          invariant cardXP == CheckedSum(card.items[..k], checked)
        {
          assert card.items[..k + 1][..k] == card.items[..k];
          if IsChecked(checked, card.items[k].id) {
            cardXP := cardXP + ItemXP(card.items[k]);
          }
          k := k + 1;
        }
        assert card.items[..k] == card.items;
      }
    }

    /** The workout shown for a weekday index (0 is Sunday). */
    function TodayWorkout(dayIndex: int): (w: Workout)
      reads this
      ensures 0 <= dayIndex < |config.workouts| ==> w == config.workouts[dayIndex]
    {
      WorkoutOfDay(config.workouts, dayIndex)
    }
  }
}
