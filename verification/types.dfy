/**
 * The records of the habit tracker: library entries, protocol sections made of
 * cards made of checkable items, the weekly workouts, the persona, the whole
 * configuration and one day's record.
 */
module Types {
  import opened Wrappers
  import opened Objects

  /** A mental model, productivity method or investor; `years` is used by investors. */
  datatype LibraryItem = LibraryItem(name: string, desc: Option<string>, resource: Option<string>, years: Option<string>)

  /** A checkable habit; `itemLabel` is its `label` (a Dafny keyword). An absent `xp` scores as 0. */
  datatype ProtocolItem = ProtocolItem(id: string, itemLabel: string, xp: Option<int>)

  datatype ScoringType = CountMultiplier | Sum

  /** A card of items. An absent `scoringType` scores like `Sum`; an absent `perItemXP` counts as 0. */
  datatype ProtocolCard = ProtocolCard(
    id: string,
    title: string,
    maxXP: int,
    scoringType: Option<ScoringType>,
    perItemXP: Option<int>,
    items: seq<ProtocolItem>,
    details: Option<seq<string>>)

  datatype ProtocolSection = ProtocolSection(title: string, columns: int, cards: seq<ProtocolCard>)

  /** One day of the weekly plan: a title (the weekday) and a description. */
  datatype Workout = Workout(t: string, d: string)

  datatype PersonaConfig = PersonaConfig(anima: string, archetype: string, symbol: string)

  /** The XP thresholds of the tiers. */
  datatype Levels = Levels(elite: int, strong: int, survival: int)

  /** Exactly four lists: quotes are bare strings, the other three hold library items. */
  datatype Library = Library(
    mentalModels: seq<LibraryItem>,
    productivity: seq<LibraryItem>,
    investors: seq<LibraryItem>,
    quotes: seq<string>)

  /**
   * The configuration. `persona` is declared required but every reader guards
   * for its absence (a stored `"persona": null` makes it absent), so it is optional here.
   */
  datatype AppConfig = AppConfig(
    levels: Levels,
    maxXP: int,
    persona: Option<PersonaConfig>,
    library: Library,
    workouts: seq<Workout>,
    protocols: seq<ProtocolSection>)

  /** One day's record: the checked item ids (a `Record<string, boolean>`) and the journal note. */
  datatype DayData = DayData(date: string, checkedItems: seq<Prop<bool>>, note: string)

  /** The tabs of the library and editor views. */
  datatype TabType = MentalModels | Productivity | Investors | Quotes | Protocols | Workouts

  /** The record of a day nobody has saved. */
  function EmptyDay(date: string): (r: DayData)
    ensures r.date == date && KeySet(r.checkedItems) == {} && r.note == ""
  {
    DayData(date, [], "")
  }

  /** `checkedItems[id]` is truthy: the item is checked. A missing id is unchecked. */
  predicate IsChecked(checked: seq<Prop<bool>>, id: string) {
    Get(checked, id) == Some(true)
  }

  lemma AbsentIsUnchecked(checked: seq<Prop<bool>>, id: string)
    ensures id !in KeySet(checked) ==> !IsChecked(checked, id)
    ensures IsChecked(checked, id) ==> id in KeySet(checked)
  {
  }

  /** A well-formed day record keeps one entry per item id, as a JavaScript object does. */
  predicate ValidDay(d: DayData) {
    UniqueKeys(d.checkedItems)
  }
}
