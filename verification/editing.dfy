/**
 * The value-level edits the configuration editor performs: JavaScript's array
 * operations (`splice(i, 1)`, `unshift`, `push`, element assignment) and the
 * field updates on cards, items, workouts, library entries and the persona.
 */
module ConfigEdits {
  import opened Wrappers
  import opened Objects
  import opened Types
  import opened Scoring
  import Numbers
  import Text

  datatype ItemField = LabelField | XpField
  datatype WorkoutField = TitleField | DescField
  datatype LibraryField = NameField | DescriptionField | ResourceField | YearsField | QuoteField
  datatype PersonaField = AnimaField | ArchetypeField | SymbolField
  datatype LibraryCategory = MentalModelsList | ProductivityList | QuotesList | InvestorsList
  datatype EditorTab = ProtocolsTab | WorkoutsTab | LibraryTab | PersonaTab

  // ----- JavaScript array operations -----

  /** Where `splice(start, …)` starts: a negative start counts from the end, and it is clamped to the array. */
  function SpliceStart(n: nat, start: int): (st: nat)
    ensures st <= n
    ensures 0 <= start <= n ==> st == start
    ensures start < 0 && n + start >= 0 ==> st == n + start
  {
    if start < 0 then (if n + start < 0 then 0 else n + start)
    else if start > n then n
    else start
  }

  /** `xs.splice(start, 1)`: removes the element at the start position, if there is one. */
  function SpliceOne<T>(xs: seq<T>, start: int): (r: seq<T>)
    ensures SpliceStart(|xs|, start) < |xs| ==> |r| == |xs| - 1
    ensures SpliceStart(|xs|, start) == |xs| ==> r == xs
    ensures forall k :: 0 <= k < SpliceStart(|xs|, start) && k < |r| ==> r[k] == xs[k]
    ensures forall k :: SpliceStart(|xs|, start) <= k < |r| ==> r[k] == xs[k + 1]
  {
    var st := SpliceStart(|xs|, start);
    if st < |xs| then xs[..st] + xs[st + 1..] else xs
  }

  /** Removing one element leaves exactly the other elements. */
  lemma SpliceOneMultiset<T>(xs: seq<T>, start: int)
    requires SpliceStart(|xs|, start) < |xs|
    ensures multiset(SpliceOne(xs, start)) + multiset{xs[SpliceStart(|xs|, start)]} == multiset(xs)
  {
    var st := SpliceStart(|xs|, start);
    assert xs == xs[..st] + [xs[st]] + xs[st + 1..];
  }

  /** `xs.unshift(x)`. */
  function Unshift<T>(xs: seq<T>, x: T): (r: seq<T>)
    ensures |r| == |xs| + 1 && r[0] == x
    ensures forall k :: 0 <= k < |xs| ==> r[k + 1] == xs[k]
  {
    [x] + xs
  }

  /** `xs.push(x)`. */
  function Push<T>(xs: seq<T>, x: T): (r: seq<T>)
    ensures |r| == |xs| + 1 && r[|xs|] == x
    ensures forall k :: 0 <= k < |xs| ==> r[k] == xs[k]
  {
    xs + [x]
  }

  /**
   * `xs[i] = v`: replaces an element, or appends at `i == |xs|`. A negative `i`
   * sets a property that is not an element; an `i` past the end leaves holes,
   * which a sequence cannot hold, so both leave the elements as they are.
   */
  function AssignAt<T>(xs: seq<T>, i: int, v: T): (r: seq<T>)
    ensures 0 <= i < |xs| ==> |r| == |xs| && r[i] == v && forall k :: 0 <= k < |xs| && k != i ==> r[k] == xs[k]
    ensures i == |xs| ==> r == Push(xs, v)
    ensures (i < 0 || i > |xs|) ==> r == xs
  {
    if 0 <= i < |xs| then xs[i := v] else if i == |xs| then xs + [v] else xs
  }

  // ----- protocol cards -----

  /** `protocols[s].cards[c]` exists. */
  predicate CardAt(ps: seq<ProtocolSection>, s: int, c: int) {
    0 <= s < |ps| && 0 <= c < |ps[s].cards|
  }

  /** The protocols with the card at `(s, c)` replaced and everything else as it was. */
  function WithCard(ps: seq<ProtocolSection>, s: int, c: int, card: ProtocolCard): (r: seq<ProtocolSection>)
    requires CardAt(ps, s, c)
    ensures |r| == |ps| && CardAt(r, s, c) && r[s].cards[c] == card
    ensures forall s' :: 0 <= s' < |ps| && s' != s ==> r[s'] == ps[s']
    ensures r[s].title == ps[s].title && r[s].columns == ps[s].columns && |r[s].cards| == |ps[s].cards|
    ensures forall c' :: 0 <= c' < |ps[s].cards| && c' != c ==> r[s].cards[c'] == ps[s].cards[c']
  {
    ps[s := ps[s].(cards := ps[s].cards[c := card])]
  }

  /** `protocols[s].cards[c].items[i]` exists. */
  predicate ItemAt(ps: seq<ProtocolSection>, s: int, c: int, i: int) {
    CardAt(ps, s, c) && 0 <= i < |ps[s].cards[c].items|
  }

  /** `card.maxXP = parseInt(val) || 0`. */
  function SetMaxXP(card: ProtocolCard, val: string): (r: ProtocolCard)
    ensures r.maxXP == Numbers.ParseIntOrZero(val)
    ensures r.(maxXP := card.maxXP) == card
  {
    card.(maxXP := Numbers.ParseIntOrZero(val))
  }

  /** `item.label = val` or `item.xp = parseInt(val) || 0`; the id never changes. */
  function SetItemField(item: ProtocolItem, field: ItemField, val: string): (r: ProtocolItem)
    ensures r.id == item.id
    ensures field == LabelField ==> r.itemLabel == val && r.xp == item.xp
    ensures field == XpField ==> r.xp == Some(Numbers.ParseIntOrZero(val)) && r.itemLabel == item.itemLabel
  {
    match field
    case LabelField => item.(itemLabel := val)
    case XpField => item.(xp := Some(Numbers.ParseIntOrZero(val)))
  }

  /** The item `addProtocolItem` appends; `now` is `Date.now()`. */
  function NewHabit(now: nat): (r: ProtocolItem)
    ensures r.itemLabel == "New Habit" && r.xp == Some(100)
    ensures Text.StartsWith(r.id, "custom_")
  {
    ProtocolItem("custom_" + Numbers.NatToString(now), "New Habit", Some(100))
  }

  // ----- workouts, library, persona -----

  function SetWorkoutField(w: Workout, field: WorkoutField, val: string): (r: Workout)
    ensures field == TitleField ==> r == Workout(val, w.d)
    ensures field == DescField ==> r == Workout(w.t, val)
  {
    match field
    case TitleField => w.(t := val)
    case DescField => w.(d := val)
  }

  /**
   * `item[field] = val` on a library entry. Writing `quote` adds a property the
   * entry's type does not have, so the modelled fields stay as they are.
   */
  function SetLibraryField(item: LibraryItem, field: LibraryField, val: string): (r: LibraryItem)
    ensures field == NameField ==> r == item.(name := val)
    ensures field == DescriptionField ==> r == item.(desc := Some(val))
    ensures field == ResourceField ==> r == item.(resource := Some(val))
    ensures field == YearsField ==> r == item.(years := Some(val))
    ensures field == QuoteField ==> r == item
  {
    match field
    case NameField => item.(name := val)
    case DescriptionField => item.(desc := Some(val))
    case ResourceField => item.(resource := Some(val))
    case YearsField => item.(years := Some(val))
    case QuoteField => item
  }

  /** The entry list of a category other than quotes. */
  function EntriesOf(lib: Library, cat: LibraryCategory): seq<LibraryItem>
    requires cat != QuotesList
  {
    match cat
    case MentalModelsList => lib.mentalModels
    case ProductivityList => lib.productivity
    case InvestorsList => lib.investors
  }

  /** The library with one category's entry list replaced. */
  function WithEntries(lib: Library, cat: LibraryCategory, xs: seq<LibraryItem>): (r: Library)
    requires cat != QuotesList
    ensures EntriesOf(r, cat) == xs && r.quotes == lib.quotes
    ensures forall other :: other != QuotesList && other != cat ==> EntriesOf(r, other) == EntriesOf(lib, other)
  {
    match cat
    case MentalModelsList => lib.(mentalModels := xs)
    case ProductivityList => lib.(productivity := xs)
    case InvestorsList => lib.(investors := xs)
  }

  /** The entry `addLibraryItem` puts first in a non-quote category. */
  function NewEntry(cat: LibraryCategory): (r: LibraryItem)
    ensures cat == InvestorsList ==> r == LibraryItem("Name", None, Some("Source"), Some("Era"))
    ensures cat != InvestorsList ==> r == LibraryItem("New Item", Some("Description"), None, None)
  {
    if cat == InvestorsList then LibraryItem("Name", None, Some("Source"), Some("Era"))
    else LibraryItem("New Item", Some("Description"), None, None)
  }

  const NewQuote := "New quote..."

  /** `updateLibraryItem` on a library: quotes are assigned by index, other entries only when present. */
  function UpdateEntry(lib: Library, cat: LibraryCategory, index: int, field: LibraryField, val: string): (r: Library)
    ensures cat == QuotesList ==> r == lib.(quotes := AssignAt(lib.quotes, index, val))
    ensures cat != QuotesList && 0 <= index < |EntriesOf(lib, cat)| ==>
      r.quotes == lib.quotes && |EntriesOf(r, cat)| == |EntriesOf(lib, cat)|
      && EntriesOf(r, cat)[index] == SetLibraryField(EntriesOf(lib, cat)[index], field, val)
      && (forall k :: 0 <= k < |EntriesOf(lib, cat)| && k != index ==> EntriesOf(r, cat)[k] == EntriesOf(lib, cat)[k])
      && (forall other :: other != QuotesList && other != cat ==> EntriesOf(r, other) == EntriesOf(lib, other))
    ensures cat != QuotesList && !(0 <= index < |EntriesOf(lib, cat)|) ==> r == lib
  {
    if cat == QuotesList then lib.(quotes := AssignAt(lib.quotes, index, val))
    else
      var list := EntriesOf(lib, cat);
      if 0 <= index < |list| then WithEntries(lib, cat, list[index := SetLibraryField(list[index], field, val)])
      else lib
  }

  /** `addLibraryItem` on a library: the category default goes first, the other lists stay. */
  function AddEntry(lib: Library, cat: LibraryCategory): (r: Library)
    ensures cat == QuotesList ==> r == lib.(quotes := Unshift(lib.quotes, NewQuote))
    ensures cat != QuotesList ==> EntriesOf(r, cat) == Unshift(EntriesOf(lib, cat), NewEntry(cat)) && r.quotes == lib.quotes
    ensures cat != QuotesList ==> forall other :: other != QuotesList && other != cat ==> EntriesOf(r, other) == EntriesOf(lib, other)
  {
    if cat == QuotesList then lib.(quotes := Unshift(lib.quotes, NewQuote))
    else WithEntries(lib, cat, Unshift(EntriesOf(lib, cat), NewEntry(cat)))
  }

  /** `removeLibraryItem` on a library, once confirmed. */
  function RemoveEntry(lib: Library, cat: LibraryCategory, index: int): (r: Library)
    ensures cat == QuotesList ==> r == lib.(quotes := SpliceOne(lib.quotes, index))
    ensures cat != QuotesList ==> EntriesOf(r, cat) == SpliceOne(EntriesOf(lib, cat), index) && r.quotes == lib.quotes
    ensures cat != QuotesList ==> forall other :: other != QuotesList && other != cat ==> EntriesOf(r, other) == EntriesOf(lib, other)
  {
    if cat == QuotesList then lib.(quotes := SpliceOne(lib.quotes, index))
    else WithEntries(lib, cat, SpliceOne(EntriesOf(lib, cat), index))
  }

  const DefaultPersona := PersonaConfig("Jaguar", "Warrior King", "Tree")

  function SetPersonaField(p: PersonaConfig, field: PersonaField, val: string): (r: PersonaConfig)
    ensures field == AnimaField ==> r == PersonaConfig(val, p.archetype, p.symbol)
    ensures field == ArchetypeField ==> r == PersonaConfig(p.anima, val, p.symbol)
    ensures field == SymbolField ==> r == PersonaConfig(p.anima, p.archetype, val)
  {
    match field
    case AnimaField => p.(anima := val)
    case ArchetypeField => p.(archetype := val)
    case SymbolField => p.(symbol := val)
  }

  // ----- edits and the day's XP -----

  lemma {:induction false} CardsXPReplace(cards: seq<ProtocolCard>, c: int, card: ProtocolCard, checked: seq<Prop<bool>>)
    requires 0 <= c < |cards|
    ensures CardsXP(cards[c := card], checked) == CardsXP(cards, checked) - CardXP(cards[c], checked) + CardXP(card, checked)
  {
    var n := |cards| - 1;
    var r := cards[c := card];
    if c == n {
      assert r[..n] == cards[..n];
    } else {
      assert r[..n] == cards[..n][c := card];
      CardsXPReplace(cards[..n], c, card, checked);
    }
  }

  lemma {:induction false} TotalXPReplace(ps: seq<ProtocolSection>, s: int, sec: ProtocolSection, delta: int, checked: seq<Prop<bool>>)
    requires 0 <= s < |ps|
    requires CardsXP(sec.cards, checked) == CardsXP(ps[s].cards, checked) + delta
    ensures TotalXP(ps[s := sec], checked) == TotalXP(ps, checked) + delta
  {
    var n := |ps| - 1;
    var r := ps[s := sec];
    if s == n {
      assert r[..n] == ps[..n];
    } else {
      assert r[..n] == ps[..n][s := sec];
      TotalXPReplace(ps[..n], s, sec, delta, checked);
    }
  }

  /** Replacing a card changes the day's total by exactly the change in that card's XP. */
  lemma WithCardTotal(ps: seq<ProtocolSection>, s: int, c: int, card: ProtocolCard, checked: seq<Prop<bool>>)
    requires CardAt(ps, s, c)
    ensures TotalXP(WithCard(ps, s, c, card), checked)
      == TotalXP(ps, checked) - CardXP(ps[s].cards[c], checked) + CardXP(card, checked)
  {
    var sec := ps[s].(cards := ps[s].cards[c := card]);
    CardsXPReplace(ps[s].cards, c, card, checked);
    TotalXPReplace(ps, s, sec, CardXP(card, checked) - CardXP(ps[s].cards[c], checked), checked);
  }

  /** Renaming a card never changes the day's XP. */
  lemma RetitleKeepsTotal(ps: seq<ProtocolSection>, s: int, c: int, val: string, checked: seq<Prop<bool>>)
    requires CardAt(ps, s, c)
    ensures TotalXP(WithCard(ps, s, c, ps[s].cards[c].(title := val)), checked) == TotalXP(ps, checked)
  {
    var card := ps[s].cards[c];
    WithCardTotal(ps, s, c, card.(title := val), checked);
    assert CheckedCount(card.(title := val).items, checked) == CheckedCount(card.items, checked);
  }
}
